/** The per-product signal of the trend strategy: best quotes with their
    sentinels, the mid-price with its fallback, the bounded mid-price history
    and its average, the dynamic band, and the volume-weighted entry price. */
module Signals {
  import opened Datamodel

  /** The best bid when there are no bids. */
  const NoBid: int := 0
  /** The best ask when there are no asks. */
  const NoAsk: int := 999999
  /** How many mid-prices the history of a product retains. */
  const HistoryCapacity: nat := 20
  /** The band around the average is 0.15% of the mid-price. */
  const DeltaRate: real := 0.0015

  /** The highest price listed. */
  function MaxPrice(levels: seq<Level>): int
    requires |levels| > 0
  {
    if |levels| == 1 then levels[0].price
    else
      var rest := MaxPrice(levels[1..]);
      if levels[0].price >= rest then levels[0].price else rest
  }

  /** The lowest price listed. */
  function MinPrice(levels: seq<Level>): int
    requires |levels| > 0
  {
    if |levels| == 1 then levels[0].price
    else
      var rest := MinPrice(levels[1..]);
      if levels[0].price <= rest then levels[0].price else rest
  }

  /** `MaxPrice` is a listed price and no listed price is higher. */
  lemma {:induction false} MaxPriceIsMax(levels: seq<Level>)
    requires |levels| > 0
    ensures exists i :: 0 <= i < |levels| && levels[i].price == MaxPrice(levels)
    ensures forall i :: 0 <= i < |levels| ==> levels[i].price <= MaxPrice(levels)
  {
    if |levels| > 1 {
      MaxPriceIsMax(levels[1..]);
      assert forall i :: 1 <= i < |levels| ==> levels[i] == levels[1..][i - 1];
      if levels[0].price < MaxPrice(levels[1..]) {
        var j :| 0 <= j < |levels[1..]| && levels[1..][j].price == MaxPrice(levels[1..]);
        assert levels[j + 1].price == MaxPrice(levels);
      } else {
        assert levels[0].price == MaxPrice(levels);
      }
    } else {
      assert levels[0].price == MaxPrice(levels);
    }
  }

  /** `MinPrice` is a listed price and no listed price is lower. */
  lemma {:induction false} MinPriceIsMin(levels: seq<Level>)
    requires |levels| > 0
    ensures exists i :: 0 <= i < |levels| && levels[i].price == MinPrice(levels)
    ensures forall i :: 0 <= i < |levels| ==> MinPrice(levels) <= levels[i].price
  {
    if |levels| > 1 {
      MinPriceIsMin(levels[1..]);
      assert forall i :: 1 <= i < |levels| ==> levels[i] == levels[1..][i - 1];
      if levels[0].price > MinPrice(levels[1..]) {
        var j :| 0 <= j < |levels[1..]| && levels[1..][j].price == MinPrice(levels[1..]);
        assert levels[j + 1].price == MinPrice(levels);
      } else {
        assert levels[0].price == MinPrice(levels);
      }
    } else {
      assert levels[0].price == MinPrice(levels);
    }
  }

  /** `max(buy_orders.keys(), default=0)`. */
  function BestBid(bids: seq<Level>): int
  {
    if bids == [] then NoBid else MaxPrice(bids)
  }

  /** `min(sell_orders.keys(), default=999999)`. */
  function BestAsk(asks: seq<Level>): int
  {
    if asks == [] then NoAsk else MinPrice(asks)
  }

  /** The best bid is the highest bid price listed, and the sentinel 0 when
      there are no bids; the best ask is the lowest ask price listed, and the
      sentinel 999999 when there are no asks. */
  lemma BestQuotes(bids: seq<Level>, asks: seq<Level>)
    ensures bids == [] ==> BestBid(bids) == NoBid
    ensures bids != [] ==> exists i :: 0 <= i < |bids| && bids[i].price == BestBid(bids)
    ensures forall i :: 0 <= i < |bids| ==> bids[i].price <= BestBid(bids)
    ensures asks == [] ==> BestAsk(asks) == NoAsk
    ensures asks != [] ==> exists i :: 0 <= i < |asks| && asks[i].price == BestAsk(asks)
    ensures forall i :: 0 <= i < |asks| ==> BestAsk(asks) <= asks[i].price
  {
    if bids != [] {
      MaxPriceIsMax(bids);
    }
    if asks != [] {
      MinPriceIsMin(asks);
    }
  }

  /** `dict.get(price, 0)` on one side of the book: the volume of the first
      level at `price`, or 0 when no level has that price. */
  function VolumeAt(levels: seq<Level>, price: int): int
  {
    if levels == [] then 0
    else if levels[0].price == price then levels[0].volume
    else VolumeAt(levels[1..], price)
  }

  /** The volume looked up is that of a level at the price asked for, and 0
      when no level has that price; in particular an empty side gives 0. */
  lemma {:induction false} VolumeAtListed(levels: seq<Level>, price: int)
    ensures (forall i :: 0 <= i < |levels| ==> levels[i].price != price) ==> VolumeAt(levels, price) == 0
    ensures (exists i :: 0 <= i < |levels| && levels[i].price == price) ==>
              exists i :: 0 <= i < |levels| && levels[i].price == price && levels[i].volume == VolumeAt(levels, price)
  {
    if levels != [] && levels[0].price != price {
      VolumeAtListed(levels[1..], price);
      assert forall i :: 1 <= i < |levels| ==> levels[i] == levels[1..][i - 1];
      if exists i :: 0 <= i < |levels| && levels[i].price == price {
        var i :| 0 <= i < |levels| && levels[i].price == price;
        assert levels[1..][i - 1].price == price;
      }
    }
  }

  /** The mid-price of a book whose best quotes are `bestBid` and `bestAsk`,
      or `lastPrice` when one side is missing. */
  function MidPrice(bestBid: int, bestAsk: int, lastPrice: real): (mid: real)
    ensures bestBid > NoBid && bestAsk < NoAsk ==>
              bestBid as real <= mid <= bestAsk as real || bestAsk as real <= mid <= bestBid as real
    ensures bestBid > NoBid && bestAsk < NoAsk ==> mid - bestBid as real == bestAsk as real - mid
    ensures !(bestBid > NoBid && bestAsk < NoAsk) ==> mid == lastPrice
  {
    if bestBid > NoBid && bestAsk < NoAsk then (bestBid + bestAsk) as real / 2.0 else lastPrice
  }

  /** With nothing on either side of the book and no trade ever seen, the
      mid-price is 0. */
  lemma EmptyBookMidIsZero()
    ensures MidPrice(BestBid([]), BestAsk([]), 0.0) == 0.0
  {
  }

  /** `deque(maxlen=20).append(x)`: `x` becomes the newest value and, once the
      history is full, the oldest value is evicted. */
  function Push(history: seq<real>, x: real): (r: seq<real>)
    ensures |history| <= HistoryCapacity ==> |r| == Min(|history| + 1, HistoryCapacity)
    ensures 1 <= |r| <= |history| + 1 && r[|r| - 1] == x
  {
    if |history| < HistoryCapacity then history + [x]
    else history[|history| - HistoryCapacity + 1..] + [x]
  }

  /** Only the oldest values are evicted: the new history is a suffix of the
      old one with `x` appended. */
  lemma PushEvictsOldest(history: seq<real>, x: real)
    ensures var r := Push(history, x);
            r == (history + [x])[|history| + 1 - |r|..]
  {
    var r := Push(history, x);
    if |history| >= HistoryCapacity {
      assert r == (history + [x])[|history| - HistoryCapacity + 1..];
    }
  }

  /** The history after recording `xs` in order into an empty one. */
  function Recorded(xs: seq<real>): seq<real>
  {
    if xs == [] then [] else Push(Recorded(xs[..|xs| - 1]), xs[|xs| - 1])
  }

  /** Pushing onto the last values of `ys` keeps the last values of `ys + [x]`. */
  lemma PushOntoSuffix(ys: seq<real>, x: real)
    ensures Push(ys[|ys| - Min(|ys|, HistoryCapacity)..], x)
            == (ys + [x])[|ys| + 1 - Min(|ys| + 1, HistoryCapacity)..]
  {
    var n := |ys|;
    var k := n - Min(n, HistoryCapacity);
    var h := ys[k..];
    var ys' := ys + [x];
    if n < HistoryCapacity {
      assert k == 0 && h == ys;
      assert Push(h, x) == ys';
      assert ys'[n + 1 - Min(n + 1, HistoryCapacity)..] == ys'[0..];
    } else {
      assert |h| == HistoryCapacity;
      assert Push(h, x) == h[1..] + [x];
      assert n + 1 - Min(n + 1, HistoryCapacity) == k + 1;
      assert h[1..] + [x] == ys'[k + 1..];
    }
  }

  /** The history holds exactly the last min(n, 20) of the n values recorded. */
  lemma {:induction false} RecordedIsLastValues(xs: seq<real>)
    ensures |Recorded(xs)| == Min(|xs|, HistoryCapacity)
    ensures Recorded(xs) == xs[|xs| - Min(|xs|, HistoryCapacity)..]
  {
    if xs != [] {
      var init := xs[..|xs| - 1];
      RecordedIsLastValues(init);
      PushOntoSuffix(init, xs[|xs| - 1]);
      assert init + [xs[|xs| - 1]] == xs;
    }
  }

  /** The sum of `s`, added from the first value to the last. */
  function Sum(s: seq<real>): real
  {
    if s == [] then 0.0 else Sum(s[..|s| - 1]) + s[|s| - 1]
  }

  /** `sum(history) / len(history)`: the arithmetic mean. */
  function Mean(s: seq<real>): real
    requires |s| > 0
  {
    Sum(s) / |s| as real
  }

  lemma {:induction false} SumWithin(s: seq<real>, lo: real, hi: real)
    requires forall i :: 0 <= i < |s| ==> lo <= s[i] <= hi
    ensures |s| as real * lo <= Sum(s) <= |s| as real * hi
  {
    if s != [] {
      SumWithin(s[..|s| - 1], lo, hi);
    }
  }

  /** The average lies between the smallest and the largest value retained. */
  lemma MeanWithin(s: seq<real>, lo: real, hi: real)
    requires |s| > 0
    requires forall i :: 0 <= i < |s| ==> lo <= s[i] <= hi
    ensures lo <= Mean(s) <= hi
  {
    SumWithin(s, lo, hi);
    var n := |s| as real;
    assert n * lo <= Sum(s) <= n * hi;
    assert Mean(s) * n == Sum(s);
  }

  /** The dynamic no-trade band, 0.15% of the mid-price. */
  function Delta(mid: real): (delta: real)
    ensures mid >= 0.0 ==> 0.0 <= delta <= mid
    ensures mid < 0.0 ==> mid <= delta < 0.0
  {
    DeltaRate * mid
  }

  /** The average entry price after buying `qty` at `ask` on top of a
      position of `pos` entered at `entry`. */
  function NewEntryPrice(entry: real, pos: int, ask: int, qty: int): real
  {
    (entry * Abs(pos) as real + ask as real * qty as real) / Max(Abs(pos) + qty, 1) as real
  }

  /** Dividing out a positive weight keeps the sign. */
  lemma SignThroughWeight(x: real, w: real)
    requires w > 0.0
    ensures x * w >= 0.0 ==> x >= 0.0
    ensures x * w <= 0.0 ==> x <= 0.0
  {
    if x < 0.0 {
      assert x * w < 0.0;
    } else if x > 0.0 {
      assert x * w > 0.0;
    }
  }

  /** A positive fill moves the entry price to a weighted average of the old
      entry and the fill price; from a flat position it is the fill price. */
  lemma EntryPriceBetween(entry: real, pos: int, ask: int, qty: int)
    requires qty > 0
    ensures entry <= ask as real ==> entry <= NewEntryPrice(entry, pos, ask, qty) <= ask as real
    ensures ask as real <= entry ==> ask as real <= NewEntryPrice(entry, pos, ask, qty) <= entry
    ensures pos == 0 ==> NewEntryPrice(entry, pos, ask, qty) == ask as real
  {
    var a := Abs(pos) as real;
    var q := qty as real;
    var s := ask as real;
    var w := a + q;
    assert Max(Abs(pos) + qty, 1) as real == w;
    var num := entry * a + s * q;
    var r := NewEntryPrice(entry, pos, ask, qty);
    assert r == num / w;
    assert r * w == num;
    assert (r - entry) * w == (s - entry) * q by {
      assert (r - entry) * w == r * w - entry * w;
      assert entry * w == entry * a + entry * q;
    }
    assert (s - r) * w == (s - entry) * a by {
      assert (s - r) * w == s * w - r * w;
      assert s * w == s * a + s * q;
    }
    if entry <= s {
      assert (s - entry) * q >= 0.0;
      assert (s - entry) * a >= 0.0;
    } else {
      assert (s - entry) * q <= 0.0;
      assert (s - entry) * a <= 0.0;
    }
    SignThroughWeight(r - entry, w);
    SignThroughWeight(s - r, w);
    if pos == 0 {
      assert a == 0.0;
      assert (s - r) * w == 0.0;
    }
  }
}
