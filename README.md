# Trading strategies for a market-making harness, in Dafny

This project models two trading strategies written for a tick-driven market
harness, plus the two pure helpers of their diagnostics logger. At every tick
the harness hands a strategy a `TradingState`:

- an order book per product, bids and asks each a price → volume dictionary;
- the reported positions;
- the latest market trades.

The strategy answers with a list of orders per product, a conversion count
and a trader-data string.

- **The trend strategy** (`Trader` in `potentiallogger.py`) keeps four
  dictionaries per product:
  - the position;
  - an average entry price;
  - the last traded price;
  - a 20-value history of mid-prices.

  Each tick, for each product, it:
  - reads the best bid and ask;
  - computes a mid-price, pushes it onto the history and takes the history's
    average;
  - applies four independent rules: short entry, long entry, take profit and
    cover short.
- **The sample strategy** (`Trader` in `main.py`) buys the first-listed ask
  below 10 and sells into the first-listed bid above 10, while its own record
  of the position is inside a limit. It adds the quantities it sends to that
  record.
- **The logger helpers** (`Logger.truncate`, `Logger.compress_orders`)
  shorten a string to a budget and flatten the order lists into rows.

Modules:

- `Datamodel` (`datamodel.dfy`): the harness's records.
  - Dictionaries whose iteration order matters (the books, the per-product
    order books) are sequences of pairs, in iteration order.
- `Logger` (`logger.dfy`): truncation and order compression.
- `Signals` (`signals.dfy`): the signal arithmetic of the trend strategy.
  - Best quotes with the sentinels 0 and 999999.
  - The mid-price.
  - The bounded history: `deque(maxlen=20)`.
  - The mean, the band of 0.15% of the mid-price, and the average-entry-price
    update.
- `Rules` (`rules.dfy`): the four rules as pure functions. They read one
  `Signal`, the tick-start position and the entry price.
- `Strategy` (`strategy.dfy`): the trend strategy.
  - A `class Trader` whose `Run` method updates its four map fields in place.
  - `Run` is proved against `RunProducts`, a pure fold of `Step` over the
    book's products.
  - The lemmas about `Step` and the fold state what one tick does.
- `Sample` (`sample.dfy`): the sample strategy.
  - A `class SampleTrader` whose `Run` is proved against the pure fold
    `SampleRun`.

Prices and volumes are integers. Mid-prices, averages, bands and entry prices
are `real`: the model computes them exactly (see "Left out").

Two behaviours of the code worth stating:

- **The fallback entry price.** The code does not store an initial entry
  price. When no long entry has happened yet, the rules use this tick's
  mid-price (`potentiallogger.py:175`), not the first mid-price ever seen.
- **The returned data.** `run` returns a trader-data string of `""` and 0
  conversions (`potentiallogger.py:139-140`). It does not pass through what it
  was given.

## Model

| member | source | states |
|---|---|---|
| Logger.PyPrefix | potentiallogger.py:120 | Python's `value[:n]` keeps `min(n, len)` characters for `n >= 0` and drops `-n` from the end for `n < 0`; the result is a prefix |
| Logger.Truncate | potentiallogger.py:116-120 | a value that fits is returned unchanged; a longer one becomes a prefix plus "..."; with a budget of at least 3 the result is exactly the budget long |
| Logger.TruncateOverrunsSmallBudget | potentiallogger.py:116-120 | for every budget below 3 and every value longer than it, the result is longer than the budget and at least 3 characters long |
| Logger.TruncateSmallBudgetExamples | potentiallogger.py:116-120 | instances of the overrun: ("abcdef", -1) gives "ab...", ("a", 0) gives "..." |
| Logger.TruncateWithin | potentiallogger.py:116-120 | corrected truncation: never longer than the budget, equal to `Truncate` whenever the budget is at least 3, a plain prefix otherwise |
| Logger.CompressList | potentiallogger.py:108-109 | one `[symbol, price, quantity]` row per order, same order, same fields |
| Logger.CompressOrders | potentiallogger.py:105-111 | the row count is the total number of orders; the first product's rows come first |
| Logger.CompressOrdersAppend | potentiallogger.py:105-111 | compressing two dictionaries laid end to end gives their row lists end to end: products keep their order |
| Signals.MaxPriceIsMax | potentiallogger.py:159 | the maximum is one of the listed prices and no listed price exceeds it |
| Signals.MinPriceIsMin | potentiallogger.py:161 | the minimum is one of the listed prices and no listed price is below it |
| Signals.BestBid | potentiallogger.py:159 | `max(buy_orders.keys(), default=0)`; its contract is `Signals.BestQuotes` |
| Signals.BestAsk | potentiallogger.py:161 | `min(sell_orders.keys(), default=999999)`; its contract is `Signals.BestQuotes` |
| Signals.VolumeAt | potentiallogger.py:160-162 | `dict.get(price, 0)` on one side of the book; its contract is `Signals.VolumeAtListed` |
| Signals.BestQuotes | potentiallogger.py:159-162 | best bid is the highest bid (0 when none), best ask the lowest ask (999999 when none) |
| Signals.VolumeAtListed | potentiallogger.py:160-162 | the volume looked up is 0 when the price is not listed, and that of a level at the price otherwise |
| Signals.MidPrice | potentiallogger.py:165-168 | with both quotes present the mid-price is their average, equidistant from both; otherwise it is the last traded price |
| Signals.EmptyBookMidIsZero | potentiallogger.py:156-168 | an empty book with no trade ever seen gives a mid-price of 0 |
| Signals.Push | potentiallogger.py:131-135 | appending to a 20-slot deque: the new value is last, the length grows by one up to 20 |
| Signals.PushEvictsOldest | potentiallogger.py:170 | the new history is a suffix of the old history followed by the new value: only the oldest values are evicted |
| Signals.RecordedIsLastValues | potentiallogger.py:131-135 | after recording n values into an empty history it holds exactly the last min(n, 20) of them, in order |
| Signals.Mean | potentiallogger.py:171 | `sum(history) / len(history)`; its contract is `Signals.MeanWithin` |
| Signals.MeanWithin | potentiallogger.py:171 | the average lies between any lower and upper bound of the retained values |
| Signals.Delta | potentiallogger.py:174 | the band has the mid-price's sign and is no larger in magnitude |
| Signals.NewEntryPrice | potentiallogger.py:194-197 | the weighted average entry price after a buy; its contract is `Signals.EntryPriceBetween` |
| Signals.EntryPriceBetween | potentiallogger.py:194-197 | after a buy the average entry price lies between the old entry price and the ask; from a flat position it is the ask |
| Rules.ShortEntry | potentiallogger.py:182-186 | rule 1 as an optional order; its contract is `Rules.ShortEntryFires` |
| Rules.LongEntry | potentiallogger.py:189-198 | rule 2 as an optional order; its contract is `Rules.LongEntryFires` |
| Rules.TakeProfit | potentiallogger.py:201-205 | rule 3 as an optional order; its contract is `Rules.TakeProfitFires` |
| Rules.CoverShort | potentiallogger.py:208-212 | rule 4 as an optional order; its contract is `Rules.CoverShortFires` |
| Rules.Decide | potentiallogger.py:181-212 | the four rules' orders in rule order; its contracts are `Rules.DecideOrdersWithinLimit` and `Rules.DecideAtMostTwo` |
| Rules.ShortEntryFires | potentiallogger.py:182-186 | short entry fires exactly when mid > sma + delta, position > -50, a bid exists and it has volume; it sells at the best bid min(bid volume, 50 + position) |
| Rules.LongEntryFires | potentiallogger.py:189-192 | long entry fires exactly when mid < sma - delta, position < 50, an ask exists and it has volume; it buys at the best ask min(ask volume, 50 - position) |
| Rules.TakeProfitFires | potentiallogger.py:201-205 | take profit fires exactly when long with a bid above entry + delta and bid volume; it sells at the best bid min(position, bid volume) |
| Rules.CoverShortFires | potentiallogger.py:208-212 | cover short fires exactly when short with an ask below entry - delta and ask volume; it buys at the best ask min(abs position, ask volume) |
| Rules.DecideOrdersWithinLimit | potentiallogger.py:181-212 | every order is for the product, non-zero, sells at the bid or buys at the ask, and on its own keeps a position within ±50 |
| Rules.DecideAtMostTwo | potentiallogger.py:181-212 | the two entries exclude each other, as do take profit and cover, so at most two orders; a short entry comes first |
| Rules.EmptyBookNoOrders | potentiallogger.py:159-212 | an empty book produces no order whatever the position, entry and signal |
| Rules.NoAskVolumeNoBuys | potentiallogger.py:189-212 | when the best ask's volume is not positive, neither long entry nor cover short fires and every order sells |
| Rules.RulesMayOvershootTogether | potentiallogger.py:181-212 | the rules do not see each other's orders: from +30, short entry and take profit together sell 110 |
| Strategy.InitialMemory | potentiallogger.py:127-135 | empty dictionaries and an empty history for each of the three tracked products |
| Strategy.Trader.constructor | potentiallogger.py:127-135 | a new trader holds the initial state |
| Strategy.LastPrice | potentiallogger.py:151-156 | the latest market trade's price, else the stored one, else 0; its contracts are `Strategy.StepPositionAndLastPrice` and `Strategy.Trader.RecordLastPrice` |
| Strategy.EntryOf | potentiallogger.py:175 | the stored entry price, else this tick's mid-price; its contracts are `Strategy.StepEntryUpdate` and `Strategy.StepEntryLedger` |
| Strategy.SignalFrom | potentiallogger.py:158-174 | best quotes and volumes, mid-price, average of the pushed history and band; its contracts are `Strategy.StepRecordsMid` and `Strategy.Trader.ReadSignal` |
| Strategy.StepOn | potentiallogger.py:145-212 | what one iteration computes for its product; its contract is `Strategy.StepIsLocal` |
| Strategy.Apply | potentiallogger.py:147-197 | writing one iteration's results back under its product; its contract is `Strategy.ApplyIsLocal` |
| Strategy.Step | potentiallogger.py:144-214 | one iteration of the product loop; its contracts are the `Strategy.Step*` lemmas |
| Strategy.RunProducts | potentiallogger.py:144-214 | the whole product loop of a tick; its contracts are the `Strategy.RunProducts*` lemmas and `Strategy.Trader.Run` |
| Strategy.StepKeepsValid | potentiallogger.py:170 | a step keeps exactly the tracked products with a history of at most 20 values |
| Strategy.StepRecordsMid | potentiallogger.py:165-171 | the new history ends with this tick's mid-price and is the old one with only the oldest values evicted |
| Strategy.StepEntryUpdate | potentiallogger.py:175-197 | the entry-price dictionary changes only when the long entry fires, and then holds the weighted average for that product only |
| Strategy.StepEntryLedger | potentiallogger.py:189-197 | after a long entry the stored entry price lies between the entry price used and the ask |
| Strategy.StepPositionAndLastPrice | potentiallogger.py:146-156 | the position is overwritten with the reported one (0 when absent); the last traded price becomes the latest trade's price when trades exist, otherwise stays |
| Strategy.StepEmptyBook | potentiallogger.py:156-212 | an empty book with no trades has a mid-price of 0 and produces no order |
| Strategy.StepOrdersBounded | potentiallogger.py:181-212 | each order keeps a position within ±50 on its own, and with a non-negative mid-price at most two orders come out |
| Strategy.LoopShape | potentiallogger.py:144-214 | the fold gives one result entry per book entry, in book order |
| Strategy.LoopKeepsValid | potentiallogger.py:144-214 | a step that keeps the trader's invariant keeps it over the whole loop |
| Strategy.LoopUntouched | potentiallogger.py:144-214 | a product the book does not list keeps all its entries through the loop |
| Strategy.LoopPerProduct | potentiallogger.py:144-214 | with distinct products, each product's orders and final entries are those of a single step from the tick-start state |
| Strategy.ApplyIsLocal | potentiallogger.py:147-197 | writing back for one product leaves every other product's entries alone |
| Strategy.StepIsLocal | potentiallogger.py:144-214 | a step touches only its product, and its effect depends only on that product's entries |
| Strategy.RunProductsKeepsValid | potentiallogger.py:144-214 | a tick over tracked products keeps every history within 20 values |
| Strategy.RunProductsShape | potentiallogger.py:138-214 | every listed product gets an order list, possibly empty, in book order |
| Strategy.RunProductsPerProduct | potentiallogger.py:144-214 | products do not influence one another within a tick |
| Strategy.Trader.Run | potentiallogger.py:137-217 | the new state and the result are one tick of the fold; the invariant is kept; conversions 0 and trader data "" |
| Strategy.Trader.TradeProduct | potentiallogger.py:145-214 | the loop body for one product updates the state and returns orders exactly as `Step` |
| Strategy.Trader.RecordLastPrice | potentiallogger.py:150-156 | returns the latest trade's price, else the stored one, else 0, and stores it only when trades exist |
| Strategy.Trader.ReadSignal | potentiallogger.py:158-174 | computes the tick's signal from the book and the history before the push, and pushes the mid-price |
| Strategy.Trader.ApplyRules | potentiallogger.py:179-212 | returns the four rules' orders in order and updates the entry price only when the long entry fires |
| Sample.SampleOrdersGuards | main.py:22-36 | a buy of the negated first ask volume at its price comes first exactly when the position is below the limit and that ask is below 10; a sell of the negated first bid volume at its price comes last exactly when the position is above minus the limit and that bid is above 10 |
| Sample.SampleBuy | main.py:22-28 | the buy check on the first-listed ask; its contract is `Sample.SampleOrdersGuards` |
| Sample.SampleSell | main.py:30-36 | the sell check on the first-listed bid; its contract is `Sample.SampleOrdersGuards` |
| Sample.SampleOrders | main.py:16-36 | the buy, then the sell; its contract is `Sample.SampleOrdersGuards` |
| Sample.SampleEmptyBook | main.py:22-36 | an empty book produces no order |
| Sample.SampleMayExceedLimit | main.py:26-41 | the limit check ignores the order's size: from 49, a 100-unit ask at 9 takes the record to 149 |
| Sample.SampleStepPosition | main.py:39-41 | the product's record ends as its old value, 0 when absent, plus the total quantity sent |
| Sample.SampleStep | main.py:19-43 | one iteration of the product loop; its contracts are `Sample.SampleStepPosition` and `Sample.SampleStepIsLocal` |
| Sample.SampleStepIsLocal | main.py:19-43 | a step touches only its product's record, and its orders depend on nothing else |
| Sample.LimitStepIsLocal | main.py:14-43 | the loop body at any limit is local to its product |
| Sample.SampleLoopShape | main.py:14-43 | one result entry per book entry, in book order |
| Sample.SampleLoopUntouched | main.py:14-43 | a product the book does not list keeps its record |
| Sample.SampleLoopPerProduct | main.py:14-43 | with distinct products each product's orders and record are those of a single step from the tick-start records |
| Sample.SampleRun | main.py:14-43 | the whole product loop of a tick; its contracts are the `Sample.SampleRun*` lemmas and `Sample.SampleTrader.Run` |
| Sample.SampleRunShape | main.py:12-43 | every listed product gets an order list, possibly empty, in book order |
| Sample.SampleRunUntouched | main.py:14-43 | a product the book does not list keeps its record through the tick |
| Sample.SampleRunOwnRecord | main.py:19-41 | with distinct products each product's orders are decided on its own record at tick start, and that record grows by their total quantity |
| Sample.SampleTrader.constructor | main.py:5-9 | stores the spread, the order size and the position limit, by default 0.02, 10 and 50; starts with no recorded position |
| Sample.SampleTrader.Run | main.py:10-49 | records and result are one tick of the fold; conversions 1, trader data "SAMPLE"; the parameters are unchanged |
| Sample.SampleTrader.TradeProduct | main.py:15-43 | the loop body for one product, exactly one `SampleStep` |
| Sample.SampleTrader.DecideOrders | main.py:19-36 | the orders are the buy and sell checks against the recorded position (0 when absent) |
| Sample.SampleTrader.RecordOrders | main.py:39-41 | the record starts at 0 when absent and grows by the total quantity of the orders |

## Left out

- Logging is not modelled. This covers `Logger.print`, `Logger.flush`, `to_json`, `compress_state`, `compress_listings`, `compress_order_depths`, `compress_trades` and `compress_observations`. It also covers every `logger.print` call in the trend strategy and every `print` call in `main.py`. These only produce diagnostic text. They do not affect orders or state.
- Observations and conversion observations are not part of the model. Neither strategy reads them for trading.
- Floating-point arithmetic is not modelled. Mid-prices, averages, bands and entry prices are exact `real`s. Rounding at the boundaries of the rule comparisons (for example `mid_price > sma + delta` when the two sides differ by less than an ulp) can therefore differ from the model.
- `Strategy.Trader.Run` requires every listed product to be one of the three tracked products. The source raises `KeyError` at `mid_price_history[product]` for any other product, and the model does not represent the exception.
- `Sample.SampleTrader.Run` models `sum(order.size for order in orders)` as the sum of the orders' quantities. The `Order` record's own definition is not part of this model, so whether it has a `size` attribute is not known here.
- `int(best_ask)` and `int(best_bid)` in `main.py` are the identity because prices are integers.
- The sample strategy's `spread` and `order_size` parameters are stored but never read, in the source as in the model.
- The datamodel classes themselves (`datamodel.py`) are not part of this model. `Trade.price` is taken to be an integer price. Volumes are taken as listed, with their sign. `main.py` negates the first ask's amount to buy, which suggests that asks carry negative volumes. If they do, the trend strategy's long entry and cover short never fire (`Rules.NoAskVolumeNoBuys`). Without the datamodel this stays a possibility, not a finding.
- Dictionary iteration follows insertion order. The model represents it as the order of the sequence given. Per-product independence lemmas assume, as for dictionary keys, that no product is listed twice.

## Findings

| source | as written | input that shows it | evidently intended | confidence | as-written member | corrected member |
|---|---|---|---|---|---|---|
| potentiallogger.py:116-120 | a value longer than `max_length` is cut to `value[:max_length - 3] + "..."`, so a budget below 3 yields a result longer than the budget | any budget below 3 with a longer value: `truncate("abcdef", -1)` returns `"ab..."` (5 characters); `truncate("a", 0)` returns `"..."` | the result never exceeds the budget | not executed | Logger.TruncateOverrunsSmallBudget | Logger.TruncateWithin |
