/** The four independent trading rules of the trend strategy. Every rule reads
    the same tick-start position and the same signal; none of them sees the
    orders emitted by the others. */
module Rules {
  import opened Datamodel
  import opened Signals

  /** The absolute position limit, the same for every product. */
  const PositionLimit: int := 50

  /** What the rules read about one product at one tick. */
  datatype Signal = Signal(
    bestBid: int, bestBidVolume: int,
    bestAsk: int, bestAskVolume: int,
    mid: real, sma: real, delta: real)

  /** Rule 1, short entry: the mid-price is above the band around the
      average, so sell into the best bid, up to the room left above the
      short limit. */
  function ShortEntry(product: Symbol, s: Signal, pos: int): Option<Order>
  {
    if s.mid > s.sma + s.delta && pos > -PositionLimit && s.bestBid > NoBid then
      var shortQty := Min(s.bestBidVolume, PositionLimit + pos);
      if shortQty > 0 then Some(Order(product, s.bestBid, -shortQty)) else None
    else None
  }

  /** Rule 2, long entry: the mid-price is below the band around the
      average, so buy from the best ask, up to the room left below the
      long limit. */
  function LongEntry(product: Symbol, s: Signal, pos: int): Option<Order>
  {
    if s.mid < s.sma - s.delta && pos < PositionLimit && s.bestAsk < NoAsk then
      var buyQty := Min(s.bestAskVolume, PositionLimit - pos);
      if buyQty > 0 then Some(Order(product, s.bestAsk, buyQty)) else None
    else None
  }

  /** Rule 3, take profit: while long, sell into a best bid above the entry
      price plus the band, at most the whole long position. */
  function TakeProfit(product: Symbol, s: Signal, pos: int, entry: real): Option<Order>
  {
    if pos > 0 && s.bestBid as real > entry + s.delta then
      var sellQty := Min(pos, s.bestBidVolume);
      if sellQty > 0 then Some(Order(product, s.bestBid, -sellQty)) else None
    else None
  }

  /** Rule 4, cover short: while short, buy from a best ask below the entry
      price minus the band, at most the whole short position. */
  function CoverShort(product: Symbol, s: Signal, pos: int, entry: real): Option<Order>
  {
    if pos < 0 && (s.bestAsk as real) < entry - s.delta then
      var coverQty := Min(Abs(pos), s.bestAskVolume);
      if coverQty > 0 then Some(Order(product, s.bestAsk, coverQty)) else None
    else None
  }

  /** The short entry fires exactly when the mid-price is above the band, the
      position is above the short limit, there is a bid and it has volume; it
      then sells at the best bid all of the bid's volume or all the room left
      to the short limit, whichever is smaller. */
  lemma ShortEntryFires(product: Symbol, s: Signal, pos: int)
    ensures var r := ShortEntry(product, s, pos);
            (r.Some? <==> s.mid > s.sma + s.delta && pos > -PositionLimit && s.bestBid > NoBid && s.bestBidVolume > 0) &&
            (r.Some? ==> r.value.symbol == product && r.value.price == s.bestBid &&
                         0 < -r.value.quantity <= s.bestBidVolume && -r.value.quantity <= PositionLimit + pos &&
                         (-r.value.quantity == s.bestBidVolume || -r.value.quantity == PositionLimit + pos))
  {
  }

  /** The long entry fires exactly when the mid-price is below the band, the
      position is below the long limit, there is an ask and it has volume; it
      then buys at the best ask all of the ask's volume or all the room left
      to the long limit, whichever is smaller. */
  lemma LongEntryFires(product: Symbol, s: Signal, pos: int)
    ensures var r := LongEntry(product, s, pos);
            (r.Some? <==> s.mid < s.sma - s.delta && pos < PositionLimit && s.bestAsk < NoAsk && s.bestAskVolume > 0) &&
            (r.Some? ==> r.value.symbol == product && r.value.price == s.bestAsk &&
                         0 < r.value.quantity <= s.bestAskVolume && r.value.quantity <= PositionLimit - pos &&
                         (r.value.quantity == s.bestAskVolume || r.value.quantity == PositionLimit - pos))
  {
  }

  /** Take profit fires exactly when long with a best bid above the entry
      price plus the band and with volume; it then sells at the best bid the
      whole position or the bid's volume, whichever is smaller. */
  lemma TakeProfitFires(product: Symbol, s: Signal, pos: int, entry: real)
    ensures var r := TakeProfit(product, s, pos, entry);
            (r.Some? <==> pos > 0 && s.bestBid as real > entry + s.delta && s.bestBidVolume > 0) &&
            (r.Some? ==> r.value.symbol == product && r.value.price == s.bestBid &&
                         0 < -r.value.quantity <= pos && -r.value.quantity <= s.bestBidVolume &&
                         (-r.value.quantity == pos || -r.value.quantity == s.bestBidVolume))
  {
  }

  /** Cover short fires exactly when short with a best ask below the entry
      price minus the band and with volume; it then buys at the best ask the
      whole short position or the ask's volume, whichever is smaller. */
  lemma CoverShortFires(product: Symbol, s: Signal, pos: int, entry: real)
    ensures var r := CoverShort(product, s, pos, entry);
            (r.Some? <==> pos < 0 && (s.bestAsk as real) < entry - s.delta && s.bestAskVolume > 0) &&
            (r.Some? ==> r.value.symbol == product && r.value.price == s.bestAsk &&
                         0 < r.value.quantity <= -pos && r.value.quantity <= s.bestAskVolume &&
                         (r.value.quantity == -pos || r.value.quantity == s.bestAskVolume))
  {
  }

  /** The orders of one product at one tick: the four rules in their order,
      short entry, long entry, take profit, cover short. */
  function Decide(product: Symbol, s: Signal, pos: int, entry: real): seq<Order>
  {
    AsList(ShortEntry(product, s, pos)) + AsList(LongEntry(product, s, pos))
    + AsList(TakeProfit(product, s, pos, entry)) + AsList(CoverShort(product, s, pos, entry))
  }

  /** Every order is for `product`, is non-zero, sells at the best bid or
      buys at the best ask, and on its own would keep a position that starts
      within the limit inside the limit. */
  lemma DecideOrdersWithinLimit(product: Symbol, s: Signal, pos: int, entry: real)
    requires -PositionLimit <= pos <= PositionLimit
    ensures forall o :: o in Decide(product, s, pos, entry) ==>
              o.symbol == product && o.quantity != 0 &&
              (o.quantity < 0 ==> o.price == s.bestBid) &&
              (o.quantity > 0 ==> o.price == s.bestAsk) &&
              -PositionLimit <= pos + o.quantity <= PositionLimit
  {
  }

  /** Take profit never fires unless long and cover never fires unless short;
      with a non-negative band the two entries exclude each other, so at most
      two orders come out, and a sell from the short entry comes first. */
  lemma DecideAtMostTwo(product: Symbol, s: Signal, pos: int, entry: real)
    requires s.delta >= 0.0
    ensures !(ShortEntry(product, s, pos).Some? && LongEntry(product, s, pos).Some?)
    ensures !(TakeProfit(product, s, pos, entry).Some? && CoverShort(product, s, pos, entry).Some?)
    ensures |Decide(product, s, pos, entry)| <= 2
    ensures ShortEntry(product, s, pos).Some? ==>
              Decide(product, s, pos, entry)[0] == ShortEntry(product, s, pos).value
  {
  }

  /** With both sides of the book empty no rule emits an order, whatever the
      position, the entry price and the price signal. */
  lemma EmptyBookNoOrders(product: Symbol, mid: real, sma: real, delta: real, pos: int, entry: real)
    ensures Decide(product, Signal(NoBid, 0, NoAsk, 0, mid, sma, delta), pos, entry) == []
  {
  }

  /** The two buying rules buy at most the best ask's volume, so when that
      volume is not positive neither of them fires, whatever the signal,
      position and entry price. */
  lemma NoAskVolumeNoBuys(product: Symbol, s: Signal, pos: int, entry: real)
    requires s.bestAskVolume <= 0
    ensures LongEntry(product, s, pos).None? && CoverShort(product, s, pos, entry).None?
    ensures forall o :: o in Decide(product, s, pos, entry) ==> o.quantity < 0
  {
    assert LongEntry(product, s, pos).None?;
    assert CoverShort(product, s, pos, entry).None?;
  }

  /** The rules do not see each other's orders: from a long position of 30
      the short entry and the take profit together sell 110, which would
      leave the position at -80, beyond the short limit. */
  lemma RulesMayOvershootTogether()
    ensures var orders := Decide("KELP", Signal(100, 100, NoAsk, 0, 200.0, 100.0, 0.3), 30, 50.0);
            |orders| == 2 && 30 + TotalQuantity(orders) == -80
  {
    var s := Signal(100, 100, NoAsk, 0, 200.0, 100.0, 0.3);
    var orders := Decide("KELP", s, 30, 50.0);
    assert orders == [Order("KELP", 100, -80), Order("KELP", 100, -30)];
    assert orders[..1] == [Order("KELP", 100, -80)];
    assert TotalQuantity(orders[..1][..0]) == 0 by {
      assert orders[..1][..0] == [];
    }
    assert TotalQuantity(orders[..1]) == -80;
    assert TotalQuantity(orders) == -110;
  }
}
