/** The trend-following trader: per tick and per product it records the last
    traded price, reads the best quotes, records the mid-price in a bounded
    history, derives the average and the band, applies the four rules and
    keeps a volume-weighted entry price for long entries. */
module Strategy {
  import opened Datamodel
  import opened Signals
  import opened Rules

  /** The only products the trader keeps a mid-price history for. */
  const TrackedProducts: set<Symbol> := {"SQUID_INK", "KELP", "RAINFOREST_RESIN"}

  /** The trader's own state, one dictionary per concern. */
  datatype Memory = Memory(
    positions: map<Symbol, int>,
    avgEntryPrices: map<Symbol, real>,
    lastTradedPrices: map<Symbol, real>,
    midPriceHistory: map<Symbol, seq<real>>)

  /** Exactly the tracked products have a history, none longer than its capacity. */
  predicate ValidMemory(m: Memory)
  {
    m.midPriceHistory.Keys == TrackedProducts &&
    forall p :: p in m.midPriceHistory ==> |m.midPriceHistory[p]| <= HistoryCapacity
  }

  /** The state of a freshly constructed trader. */
  function InitialMemory(): (m: Memory)
    ensures ValidMemory(m)
    ensures forall p :: p in TrackedProducts ==> m.midPriceHistory[p] == []
  {
    Memory(map[], map[], map[], map p | p in TrackedProducts :: [])
  }

  /** What the trader remembers about one product when the step reads it:
      the stored entry price and last traded price, if any, and the history. */
  datatype Slot = Slot(avgEntry: Option<real>, lastTraded: Option<real>, history: seq<real>)

  function Lookup<V>(m: map<Symbol, V>, p: Symbol): Option<V>
  {
    if p in m then Some(m[p]) else None
  }

  function SlotOf(m: Memory, product: Symbol): Slot
  {
    Slot(Lookup(m.avgEntryPrices, product), Lookup(m.lastTradedPrices, product),
         GetOr(m.midPriceHistory, product, []))
  }

  /** The market trades the harness reports for `product`, none when absent. */
  function TradesOf(state: TradingState, product: Symbol): seq<Trade>
  {
    GetOr(state.marketTrades, product, [])
  }

  /** The price of the latest market trade of the tick, else the price carried
      over from earlier ticks, else 0. */
  function LastPrice(slot: Slot, trades: seq<Trade>): real
  {
    if trades != [] then trades[|trades| - 1].price as real
    else if slot.lastTraded.Some? then slot.lastTraded.value
    else 0.0
  }

  /** The mid-price of this tick. */
  function MidOf(slot: Slot, state: TradingState, product: Symbol, od: OrderDepth): real
  {
    MidPrice(BestBid(od.buyOrders), BestAsk(od.sellOrders), LastPrice(slot, TradesOf(state, product)))
  }

  /** The history after recording this tick's mid-price. */
  function HistoryAfter(slot: Slot, state: TradingState, product: Symbol, od: OrderDepth): seq<real>
  {
    Push(slot.history, MidOf(slot, state, product, od))
  }

  /** The signal of a tick whose book is `od`, from the history before the
      tick and the last traded price: best quotes and their volumes, the
      mid-price, the mean of the history with the mid-price pushed, and the
      band. */
  function SignalFrom(history: seq<real>, od: OrderDepth, lastPrice: real): Signal
  {
    var bestBid := BestBid(od.buyOrders);
    var bestAsk := BestAsk(od.sellOrders);
    var mid := MidPrice(bestBid, bestAsk, lastPrice);
    Signal(bestBid, VolumeAt(od.buyOrders, bestBid), bestAsk, VolumeAt(od.sellOrders, bestAsk),
           mid, Mean(Push(history, mid)), Delta(mid))
  }

  /** Everything the rules read about `product` at this tick. */
  function SignalOf(slot: Slot, state: TradingState, product: Symbol, od: OrderDepth): Signal
  {
    SignalFrom(slot.history, od, LastPrice(slot, TradesOf(state, product)))
  }

  /** The entry price the rules use: the stored one, else this tick's mid-price. */
  function EntryOf(slot: Slot, state: TradingState, product: Symbol, od: OrderDepth): real
  {
    if slot.avgEntry.Some? then slot.avgEntry.value else MidOf(slot, state, product, od)
  }

  /** What one step writes back for its product: the position, a new entry
      price and a new last traded price when there is one, the new history,
      and the product's orders. */
  datatype Outcome = Outcome(
    position: int, newAvgEntry: Option<real>, newLastTraded: Option<real>,
    history: seq<real>, orders: seq<Order>)

  /** The body of the product loop for one product, on what the trader
      remembers about that product. */
  function StepOn(slot: Slot, state: TradingState, product: Symbol, od: OrderDepth): Outcome
  {
    var pos := GetOr(state.position, product, 0);
    var trades := TradesOf(state, product);
    var s := SignalOf(slot, state, product, od);
    var entry := EntryOf(slot, state, product, od);
    var long := LongEntry(product, s, pos);
    Outcome(
      pos,
      if long.Some? then Some(NewEntryPrice(entry, pos, s.bestAsk, long.value.quantity)) else None,
      if trades != [] then Some(trades[|trades| - 1].price as real) else None,
      HistoryAfter(slot, state, product, od),
      Decide(product, s, pos, entry))
  }

  /** The trader's dictionaries after writing `o` back for `product`. */
  function Apply(m: Memory, product: Symbol, o: Outcome): Memory
  {
    Memory(
      m.positions[product := o.position],
      if o.newAvgEntry.Some? then m.avgEntryPrices[product := o.newAvgEntry.value] else m.avgEntryPrices,
      if o.newLastTraded.Some? then m.lastTradedPrices[product := o.newLastTraded.value] else m.lastTradedPrices,
      m.midPriceHistory[product := o.history])
  }

  datatype StepResult = StepResult(memory: Memory, orders: seq<Order>)

  /** One iteration of the product loop: the new state and the product's
      orders. */
  function Step(m: Memory, state: TradingState, product: Symbol, od: OrderDepth): StepResult
  {
    var o := StepOn(SlotOf(m, product), state, product, od);
    StepResult(Apply(m, product, o), o.orders)
  }

  /** A step is its outcome written back: this names the outcome so that
      the lemmas below reason about its fields one at a time. */
  lemma StepWritesBack(m: Memory, state: TradingState, product: Symbol, od: OrderDepth) returns (o: Outcome)
    ensures o == StepOn(SlotOf(m, product), state, product, od)
    ensures Step(m, state, product, od) == StepResult(Apply(m, product, o), o.orders)
  {
    o := StepOn(SlotOf(m, product), state, product, od);
  }

  /** A step keeps every history within its capacity. */
  lemma StepKeepsValid(m: Memory, state: TradingState, product: Symbol, od: OrderDepth)
    requires ValidMemory(m) && product in TrackedProducts
    ensures ValidMemory(Step(m, state, product, od).memory)
  {
    var o := StepWritesBack(m, state, product, od);
    assert o.history == HistoryAfter(SlotOf(m, product), state, product, od);
    assert |o.history| <= HistoryCapacity;
  }

  /** The new history keeps at most 20 values, ends with this tick's
      mid-price and is what remains of the old one with it appended; the
      average the rules compare against is the mean of exactly those values. */
  lemma StepRecordsMid(m: Memory, state: TradingState, product: Symbol, od: OrderDepth)
    requires ValidMemory(m) && product in TrackedProducts
    ensures var h := Step(m, state, product, od).memory.midPriceHistory[product];
            var old_h := m.midPriceHistory[product];
            var mid := MidOf(SlotOf(m, product), state, product, od);
            |h| == Min(|old_h| + 1, HistoryCapacity) && h[|h| - 1] == mid &&
            h == (old_h + [mid])[|old_h| + 1 - |h|..] &&
            SignalOf(SlotOf(m, product), state, product, od).sma == Mean(h)
  {
    PushEvictsOldest(m.midPriceHistory[product], MidOf(SlotOf(m, product), state, product, od));
  }

  /** The entry-price ledger is written only when the long entry fires, and
      then only for `product`, with the volume-weighted average of the entry
      price the rules used and the fill. */
  lemma StepEntryUpdate(m: Memory, state: TradingState, product: Symbol, od: OrderDepth)
    ensures var slot := SlotOf(m, product);
            var s := SignalOf(slot, state, product, od);
            var pos := GetOr(state.position, product, 0);
            var long := LongEntry(product, s, pos);
            Step(m, state, product, od).memory.avgEntryPrices ==
              if long.Some? then
                m.avgEntryPrices[product := NewEntryPrice(EntryOf(slot, state, product, od), pos, s.bestAsk, long.value.quantity)]
              else m.avgEntryPrices
  {
    var o := StepWritesBack(m, state, product, od);
  }

  /** After a long entry the stored entry price lies between the entry price
      the rules used and the ask paid, and equals the ask from a flat
      position. */
  lemma StepEntryLedger(m: Memory, state: TradingState, product: Symbol, od: OrderDepth)
    ensures var r := Step(m, state, product, od).memory;
            var slot := SlotOf(m, product);
            var s := SignalOf(slot, state, product, od);
            var pos := GetOr(state.position, product, 0);
            var entry := EntryOf(slot, state, product, od);
            var ask := s.bestAsk as real;
            LongEntry(product, s, pos).Some? ==>
              product in r.avgEntryPrices &&
              (entry <= ask ==> entry <= r.avgEntryPrices[product] <= ask) &&
              (ask <= entry ==> ask <= r.avgEntryPrices[product] <= entry) &&
              (pos == 0 ==> r.avgEntryPrices[product] == ask)
  {
    var slot := SlotOf(m, product);
    var s := SignalOf(slot, state, product, od);
    var pos := GetOr(state.position, product, 0);
    var long := LongEntry(product, s, pos);
    StepEntryUpdate(m, state, product, od);
    if long.Some? {
      EntryPriceBetween(EntryOf(slot, state, product, od), pos, s.bestAsk, long.value.quantity);
    }
  }

  /** The tracked position is overwritten with the reported one (0 when
      absent), and the last traded price is replaced only when the tick has
      market trades for the product, by the price of the latest one. */
  lemma StepPositionAndLastPrice(m: Memory, state: TradingState, product: Symbol, od: OrderDepth)
    ensures var r := Step(m, state, product, od).memory;
            var trades := TradesOf(state, product);
            r.positions == m.positions[product := GetOr(state.position, product, 0)] &&
            r.lastTradedPrices ==
              if trades != [] then m.lastTradedPrices[product := trades[|trades| - 1].price as real]
              else m.lastTradedPrices
  {
    var o := StepWritesBack(m, state, product, od);
    var trades := TradesOf(state, product);
    assert o.position == GetOr(state.position, product, 0);
    assert o.newLastTraded == if trades != [] then Some(trades[|trades| - 1].price as real) else None;
  }

  /** With both sides of the book empty, no market trade now or before,
      the mid-price is 0 and no order comes out. */
  lemma StepEmptyBook(m: Memory, state: TradingState, product: Symbol)
    requires TradesOf(state, product) == [] && product !in m.lastTradedPrices
    ensures MidOf(SlotOf(m, product), state, product, OrderDepth([], [])) == 0.0
    ensures Step(m, state, product, OrderDepth([], [])).orders == []
  {
    var slot := SlotOf(m, product);
    var od := OrderDepth([], []);
    EmptyBookNoOrders(product, 0.0, SignalOf(slot, state, product, od).sma, 0.0,
                      GetOr(state.position, product, 0), EntryOf(slot, state, product, od));
  }

  /** Each order of the tick stays within the limit on its own whenever the
      reported position does, and with a non-negative mid-price at most two
      orders come out. */
  lemma StepOrdersBounded(m: Memory, state: TradingState, product: Symbol, od: OrderDepth)
    requires -PositionLimit <= GetOr(state.position, product, 0) <= PositionLimit
    ensures var pos := GetOr(state.position, product, 0);
            forall o :: o in Step(m, state, product, od).orders ==>
              o.symbol == product && o.quantity != 0 && -PositionLimit <= pos + o.quantity <= PositionLimit
    ensures MidOf(SlotOf(m, product), state, product, od) >= 0.0 ==> |Step(m, state, product, od).orders| <= 2
  {
    var slot := SlotOf(m, product);
    var s := SignalOf(slot, state, product, od);
    var pos := GetOr(state.position, product, 0);
    var entry := EntryOf(slot, state, product, od);
    DecideOrdersWithinLimit(product, s, pos, entry);
    if s.mid >= 0.0 {
      DecideAtMostTwo(product, s, pos, entry);
    }
  }

  datatype TickResult = TickResult(memory: Memory, result: seq<(Symbol, seq<Order>)>)

  /** One iteration of the product loop, as a value. */
  type StepFn = (Memory, Symbol, OrderDepth) -> StepResult

  /** The product loop: `step` applied to the entries of `ods` in order, each
      product's orders collected under its name. */
  function Loop(m: Memory, ods: seq<(Symbol, OrderDepth)>, step: StepFn): TickResult
  {
    if ods == [] then TickResult(m, [])
    else
      var prev := Loop(m, ods[..|ods| - 1], step);
      var r := step(prev.memory, ods[|ods| - 1].0, ods[|ods| - 1].1);
      TickResult(r.memory, prev.result + [(ods[|ods| - 1].0, r.orders)])
  }

  /** The iteration of the trend strategy for the tick `state`. */
  function TickStep(state: TradingState): StepFn
  {
    (m: Memory, p: Symbol, od: OrderDepth) => Step(m, state, p, od)
  }

  /** What one tick does to the trader's state and what it returns. */
  function RunProducts(m: Memory, state: TradingState, ods: seq<(Symbol, OrderDepth)>): TickResult
  {
    Loop(m, ods, TickStep(state))
  }

  lemma LoopSnoc(m: Memory, ods: seq<(Symbol, OrderDepth)>, i: nat, step: StepFn)
    requires i < |ods|
    ensures var prev := Loop(m, ods[..i], step);
            var r := step(prev.memory, ods[i].0, ods[i].1);
            Loop(m, ods[..i + 1], step) == TickResult(r.memory, prev.result + [(ods[i].0, r.orders)])
  {
    assert ods[..i + 1][..i] == ods[..i];
  }

  lemma {:induction false} LoopShape(m: Memory, ods: seq<(Symbol, OrderDepth)>, step: StepFn)
    ensures var r := Loop(m, ods, step).result;
            |r| == |ods| && forall i :: 0 <= i < |ods| ==> r[i].0 == ods[i].0
  {
    if ods != [] {
      var n := |ods| - 1;
      LoopShape(m, ods[..n], step);
      var prev := Loop(m, ods[..n], step).result;
      var r := Loop(m, ods, step).result;
      forall i | 0 <= i < n
        ensures r[i].0 == ods[i].0
      {
        assert r[i] == prev[i];
        assert ods[..n][i] == ods[i];
      }
    }
  }

  /** `step` keeps the trader's state valid for tracked products. */
  ghost predicate KeepsValid(step: StepFn)
  {
    forall m, p, od :: ValidMemory(m) && p in TrackedProducts ==> ValidMemory(step(m, p, od).memory)
  }

  lemma {:induction false} LoopKeepsValid(m: Memory, ods: seq<(Symbol, OrderDepth)>, step: StepFn)
    requires KeepsValid(step) && ValidMemory(m)
    requires forall i :: 0 <= i < |ods| ==> ods[i].0 in TrackedProducts
    ensures ValidMemory(Loop(m, ods, step).memory)
  {
    if ods != [] {
      LoopKeepsValid(m, ods[..|ods| - 1], step);
    }
  }

  /** `m1` and `m2` hold the same state for `p`. */
  predicate AgreeOn(m1: Memory, m2: Memory, p: Symbol)
  {
    SameEntry(m1.positions, m2.positions, p) && SameEntry(m1.avgEntryPrices, m2.avgEntryPrices, p) &&
    SameEntry(m1.lastTradedPrices, m2.lastTradedPrices, p) && SameEntry(m1.midPriceHistory, m2.midPriceHistory, p)
  }

  /** `step` for one product touches no other product's state, and its
      orders and its effect on its own product depend on that product's
      state alone. */
  ghost predicate IsLocal(step: StepFn)
  {
    (forall m, p, od, q :: q != p ==> AgreeOn(step(m, p, od).memory, m, q)) &&
    (forall m1, m2, p, od :: AgreeOn(m1, m2, p) ==>
       step(m1, p, od).orders == step(m2, p, od).orders &&
       AgreeOn(step(m1, p, od).memory, step(m2, p, od).memory, p))
  }

  lemma {:induction false} LoopUntouched(m: Memory, ods: seq<(Symbol, OrderDepth)>, step: StepFn, p: Symbol)
    requires IsLocal(step)
    requires forall i :: 0 <= i < |ods| ==> ods[i].0 != p
    ensures AgreeOn(Loop(m, ods, step).memory, m, p)
  {
    if ods != [] {
      var n := |ods| - 1;
      LoopUntouched(m, ods[..n], step, p);
      var prev := Loop(m, ods[..n], step).memory;
      assert ods[n].0 != p;
      assert AgreeOn(step(prev, ods[n].0, ods[n].1).memory, prev, p);
    }
  }

  lemma {:induction false} LoopPerProduct(m: Memory, ods: seq<(Symbol, OrderDepth)>, step: StepFn)
    requires IsLocal(step) && DistinctSymbols(ods)
    ensures var r := Loop(m, ods, step);
            |r.result| == |ods| &&
            forall i :: 0 <= i < |ods| ==>
              r.result[i] == (ods[i].0, step(m, ods[i].0, ods[i].1).orders) &&
              AgreeOn(r.memory, step(m, ods[i].0, ods[i].1).memory, ods[i].0)
  {
    LoopShape(m, ods, step);
    if ods != [] {
      var n := |ods| - 1;
      var init := ods[..n];
      var prev := Loop(m, init, step);
      var last := Loop(m, ods, step);
      LoopPerProduct(m, init, step);
      LoopUntouched(m, init, step, ods[n].0);
      forall i | 0 <= i < n
        ensures last.result[i] == (ods[i].0, step(m, ods[i].0, ods[i].1).orders)
        ensures AgreeOn(last.memory, step(m, ods[i].0, ods[i].1).memory, ods[i].0)
      {
        assert init[i] == ods[i];
        assert last.result[i] == prev.result[i];
        assert AgreeOn(last.memory, prev.memory, ods[i].0);
      }
    }
  }

  /** Writing an outcome back for `p` leaves every other product's entries
      alone and gives `p` the same entries whatever the rest of the state. */
  lemma ApplyIsLocal(m1: Memory, m2: Memory, p: Symbol, o: Outcome)
    requires AgreeOn(m1, m2, p)
    ensures forall q :: q != p ==> AgreeOn(Apply(m1, p, o), m1, q)
    ensures AgreeOn(Apply(m1, p, o), Apply(m2, p, o), p)
  {
    var r1 := Apply(m1, p, o);
    var r2 := Apply(m2, p, o);
    forall q | q != p
      ensures AgreeOn(r1, m1, q)
    {
      assert SameEntry(r1.positions, m1.positions, q);
      assert SameEntry(r1.avgEntryPrices, m1.avgEntryPrices, q);
      assert SameEntry(r1.lastTradedPrices, m1.lastTradedPrices, q);
      assert SameEntry(r1.midPriceHistory, m1.midPriceHistory, q);
    }
    assert SameEntry(r1.avgEntryPrices, r2.avgEntryPrices, p);
    assert SameEntry(r1.lastTradedPrices, r2.lastTradedPrices, p);
  }

  /** A step for one product leaves every other product's state alone, and
      what it does to its own product depends on nothing else. */
  lemma StepIsLocal(m1: Memory, m2: Memory, state: TradingState, product: Symbol, od: OrderDepth)
    requires AgreeOn(m1, m2, product)
    ensures forall q :: q != product ==> AgreeOn(Step(m1, state, product, od).memory, m1, q)
    ensures Step(m1, state, product, od).orders == Step(m2, state, product, od).orders
    ensures AgreeOn(Step(m1, state, product, od).memory, Step(m2, state, product, od).memory, product)
  {
    assert SlotOf(m1, product) == SlotOf(m2, product);
    var o := StepWritesBack(m1, state, product, od);
    var o2 := StepWritesBack(m2, state, product, od);
    assert o2 == o;
    ApplyIsLocal(m1, m2, product, o);
  }

  lemma TickStepIsLocal(state: TradingState)
    ensures IsLocal(TickStep(state))
  {
    var step := TickStep(state);
    forall m, p, od, q | q != p
      ensures AgreeOn(step(m, p, od).memory, m, q)
    {
      StepIsLocal(m, m, state, p, od);
    }
    forall m1, m2, p, od | AgreeOn(m1, m2, p)
      ensures step(m1, p, od).orders == step(m2, p, od).orders
      ensures AgreeOn(step(m1, p, od).memory, step(m2, p, od).memory, p)
    {
      StepIsLocal(m1, m2, state, p, od);
    }
  }

  /** A tick keeps every history within its capacity. */
  lemma RunProductsKeepsValid(m: Memory, state: TradingState, ods: seq<(Symbol, OrderDepth)>)
    requires ValidMemory(m)
    requires forall i :: 0 <= i < |ods| ==> ods[i].0 in TrackedProducts
    ensures ValidMemory(RunProducts(m, state, ods).memory)
  {
    var step := TickStep(state);
    forall m', p, od | ValidMemory(m') && p in TrackedProducts
      ensures ValidMemory(step(m', p, od).memory)
    {
      StepKeepsValid(m', state, p, od);
    }
    LoopKeepsValid(m, ods, step);
  }

  /** Every product of the book gets an entry in the result, possibly an
      empty list, in the book's order. */
  lemma RunProductsShape(m: Memory, state: TradingState, ods: seq<(Symbol, OrderDepth)>)
    ensures var r := RunProducts(m, state, ods).result;
            |r| == |ods| && forall i :: 0 <= i < |ods| ==> r[i].0 == ods[i].0
  {
    LoopShape(m, ods, TickStep(state));
  }

  /** When no product is listed twice, as for a dictionary, each product's
      orders and final state are those of a single step from the tick-start
      state: products do not influence one another. */
  lemma RunProductsPerProduct(m: Memory, state: TradingState, ods: seq<(Symbol, OrderDepth)>)
    requires DistinctSymbols(ods)
    ensures var r := RunProducts(m, state, ods);
            |r.result| == |ods| &&
            forall i :: 0 <= i < |ods| ==>
              r.result[i] == (ods[i].0, Step(m, state, ods[i].0, ods[i].1).orders) &&
              AgreeOn(r.memory, Step(m, state, ods[i].0, ods[i].1).memory, ods[i].0)
  {
    TickStepIsLocal(state);
    LoopPerProduct(m, ods, TickStep(state));
  }

  /** `Trader` of the trend strategy: its four dictionaries, updated in place
      by `Run`. */
  class Trader {
    var positions: map<Symbol, int>
    var avgEntryPrices: map<Symbol, real>
    var lastTradedPrices: map<Symbol, real>
    var midPriceHistory: map<Symbol, seq<real>>

    function Snapshot(): Memory
      reads this
    {
      Memory(positions, avgEntryPrices, lastTradedPrices, midPriceHistory)
    }

    ghost predicate Valid()
      reads this
    {
      ValidMemory(Snapshot())
    }

    /** Empty dictionaries, and an empty history for each tracked product. */
    constructor ()
      ensures Valid()
      ensures Snapshot() == InitialMemory()
    {
      positions := map[];
      avgEntryPrices := map[];
      lastTradedPrices := map[];
      midPriceHistory := map p | p in TrackedProducts :: [];
    }

    /** One tick. A product outside the tracked set has no history and the
        original raises `KeyError` for it, so the caller must not list one. */
    method Run(state: TradingState) returns (result: seq<(Symbol, seq<Order>)>, conversions: int, traderData: string)
      requires Valid()
      requires forall i :: 0 <= i < |state.orderDepths| ==> state.orderDepths[i].0 in TrackedProducts
      modifies this
      ensures Valid()
      ensures Snapshot() == RunProducts(old(Snapshot()), state, state.orderDepths).memory
      ensures result == RunProducts(old(Snapshot()), state, state.orderDepths).result
      ensures conversions == 0 && traderData == ""
    {
      result := [];
      conversions := 0;
      traderData := "";
      var ods := state.orderDepths;
      for i := 0 to |ods|
        invariant Valid()
        invariant Snapshot() == Loop(old(Snapshot()), ods[..i], TickStep(state)).memory
        invariant result == Loop(old(Snapshot()), ods[..i], TickStep(state)).result
      {
        LoopSnoc(old(Snapshot()), ods, i, TickStep(state));
        ghost var before := Snapshot();
        StepKeepsValid(before, state, ods[i].0, ods[i].1);
        var orders := TradeProduct(state, ods[i].0, ods[i].1);
        result := result + [(ods[i].0, orders)];
      }
      assert ods[..|ods|] == ods;
    }

    /** The body of the product loop for one product: records the position
        and the last traded price, reads the book and pushes the mid-price,
        then applies the four rules. */
    method TradeProduct(state: TradingState, product: Symbol, orderDepth: OrderDepth) returns (orders: seq<Order>)
      requires product in midPriceHistory
      modifies this
      ensures Snapshot() == Step(old(Snapshot()), state, product, orderDepth).memory
      ensures orders == Step(old(Snapshot()), state, product, orderDepth).orders
    {
      ghost var before := Snapshot();
      var currentPosition := GetOr(state.position, product, 0);
      positions := positions[product := currentPosition];
      var lastPrice := RecordLastPrice(state, product);
      var s := ReadSignal(product, orderDepth, lastPrice);
      var entryPrice := GetOr(avgEntryPrices, product, s.mid);
      orders := ApplyRules(product, s, currentPosition, entryPrice);

      ghost var o := StepWritesBack(before, state, product, orderDepth);
      assert s == SignalOf(SlotOf(before, product), state, product, orderDepth);
      assert Snapshot() == Apply(before, product, o);
    }

    /** Reads the best quotes and their volumes, takes the mid-price (the
        last traded price when a side is empty), pushes it onto the
        product's history and derives the average and the band. */
    method ReadSignal(product: Symbol, orderDepth: OrderDepth, lastPrice: real) returns (s: Signal)
      requires product in midPriceHistory
      modifies this
      ensures s == SignalFrom(old(midPriceHistory[product]), orderDepth, lastPrice)
      ensures midPriceHistory == old(midPriceHistory)[product := Push(old(midPriceHistory[product]), s.mid)]
      ensures positions == old(positions) && avgEntryPrices == old(avgEntryPrices)
      ensures lastTradedPrices == old(lastTradedPrices)
    {
      var bestBid := BestBid(orderDepth.buyOrders);
      var bestBidVolume := VolumeAt(orderDepth.buyOrders, bestBid);
      var bestAsk := BestAsk(orderDepth.sellOrders);
      var bestAskVolume := VolumeAt(orderDepth.sellOrders, bestAsk);

      var midPrice: real;
      if bestBid > NoBid && bestAsk < NoAsk {
        midPrice := (bestBid + bestAsk) as real / 2.0;
      } else {
        midPrice := lastPrice;
      }

      midPriceHistory := midPriceHistory[product := Push(midPriceHistory[product], midPrice)];
      var sma := Mean(midPriceHistory[product]);
      var delta := DeltaRate * midPrice;
      s := Signal(bestBid, bestBidVolume, bestAsk, bestAskVolume, midPrice, sma, delta);
    }

    /** Records the price of the latest market trade of the tick, if any, and
        returns the last traded price: that one, else the stored one, else 0. */
    method RecordLastPrice(state: TradingState, product: Symbol) returns (lastPrice: real)
      modifies this
      ensures lastPrice == LastPrice(SlotOf(old(Snapshot()), product), TradesOf(state, product))
      ensures var trades := TradesOf(state, product);
              lastTradedPrices ==
                if trades != [] then old(lastTradedPrices)[product := trades[|trades| - 1].price as real]
                else old(lastTradedPrices)
      ensures positions == old(positions) && avgEntryPrices == old(avgEntryPrices)
      ensures midPriceHistory == old(midPriceHistory)
    {
      var marketTrades := GetOr(state.marketTrades, product, []);
      if |marketTrades| > 0 {
        lastPrice := marketTrades[|marketTrades| - 1].price as real;
        lastTradedPrices := lastTradedPrices[product := lastPrice];
      } else {
        lastPrice := GetOr(lastTradedPrices, product, 0.0);
      }
    }

    /** The trading logic: the four rules in their order, each reading the
        same position and signal, and the entry-price update of a long entry. */
    method ApplyRules(product: Symbol, s: Signal, currentPosition: int, entryPrice: real) returns (orders: seq<Order>)
      modifies this
      ensures orders == Decide(product, s, currentPosition, entryPrice)
      ensures var long := LongEntry(product, s, currentPosition);
              avgEntryPrices ==
                if long.Some? then old(avgEntryPrices)[product := NewEntryPrice(entryPrice, currentPosition, s.bestAsk, long.value.quantity)]
                else old(avgEntryPrices)
      ensures positions == old(positions) && lastTradedPrices == old(lastTradedPrices)
      ensures midPriceHistory == old(midPriceHistory)
    {
      orders := [];
      if s.mid > s.sma + s.delta && currentPosition > -PositionLimit && s.bestBid > NoBid {
        var shortQty := Min(s.bestBidVolume, PositionLimit + currentPosition);
        if shortQty > 0 {
          orders := orders + [Order(product, s.bestBid, -shortQty)];
        }
      }
      assert orders == AsList(ShortEntry(product, s, currentPosition));

      ghost var long := LongEntry(product, s, currentPosition);
      if s.mid < s.sma - s.delta && currentPosition < PositionLimit && s.bestAsk < NoAsk {
        var buyQty := Min(s.bestAskVolume, PositionLimit - currentPosition);
        if buyQty > 0 {
          assert long == Some(Order(product, s.bestAsk, buyQty));
          orders := orders + [Order(product, s.bestAsk, buyQty)];
          avgEntryPrices := avgEntryPrices[product := NewEntryPrice(entryPrice, currentPosition, s.bestAsk, buyQty)];
        } else {
          assert long.None?;
        }
      } else {
        assert long.None?;
      }
      assert orders == AsList(ShortEntry(product, s, currentPosition)) + AsList(LongEntry(product, s, currentPosition));

      if currentPosition > 0 && s.bestBid as real > entryPrice + s.delta {
        var sellQty := Min(currentPosition, s.bestBidVolume);
        if sellQty > 0 {
          orders := orders + [Order(product, s.bestBid, -sellQty)];
        }
      }
      assert orders == AsList(ShortEntry(product, s, currentPosition)) + AsList(LongEntry(product, s, currentPosition))
                       + AsList(TakeProfit(product, s, currentPosition, entryPrice));

      if currentPosition < 0 && (s.bestAsk as real) < entryPrice - s.delta {
        var coverQty := Min(Abs(currentPosition), s.bestAskVolume);
        if coverQty > 0 {
          orders := orders + [Order(product, s.bestAsk, coverQty)];
        }
      }
    }
  }
}
