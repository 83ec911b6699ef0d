# High-win-rate strategy: a verified model of its per-bar logic

This project models `HighWinRateStrategy` from `strategy.py`, a backtrader strategy
run on daily bars. The model covers its three callbacks:

- **Per-bar decision (`next`).** Nothing happens while an order is pending or
  before `sma_long` bars have been seen.
  - **Flat.** Six entry conditions are scored. A buy for 95% of the cash at
    the close is submitted when at least four of them hold.
  - **Holding.** Four exit triggers are tested in a fixed order: take-profit,
    stop-loss, RSI overbought, trend reversal with a 2% profit floor. The
    first one that holds submits a close.
- **Order notifications (`notify_order`).** Submitted and Accepted keep the
  order pending. Every other status clears it. A completed buy records the
  executed price and commission. A completed sell counts a win when its
  per-unit profit net of both commissions is positive.
- **End of run (`stop`).** The win rate is wins over counted trades as a
  percentage, or 0 when no trade was counted.

Files:

- **`signals.dfy` (module `Signals`).** Pure functions: the entry conditions
  and their count, and the exit trigger chosen by priority.
- **`lifecycle.dfy` (module `Lifecycle`).** The strategy's fields as a value
  (`StrategyState`). It has the specification functions `Decide` (the bar's
  decision), `AfterNext` (its effect on the fields), `AfterNotify` and
  `WinRate`. It also has the invariant `Consistent`, and lemmas for each
  property.
- **`strategy.dfy` (module `HighWinRate`).** Class `Strategy` with the fields
  the source updates in place, plus the methods `Next`, `NotifyOrder` and
  `Stop`. Each method follows the source step by step. Its `ensures` ties the
  new fields to the specification functions and keeps `Consistent`.

Modelling choices:

- **Inputs.** Indicator values, the close, the volume, the number of bars seen
  and the broker's cash are parameters of `Next`. The executed price,
  commission, status and side are fields of the notification passed to
  `NotifyOrder`. Prices and ratios are `real`.
- **Exceptions.** Python exceptions the code can raise are explicit results.
  `ZeroDivisionError` comes from a zero close at buy sizing or a zero entry
  price at `profit_pct`. `TypeError` comes from an unset entry price at
  `profit_pct`, or an unset entry price or commission at a completed sell. `Consistent` rules out `TypeError` (lemmas
  `NextFaults`, `NotifyKeepsConsistent`).
- **Position.** The position is a flag. A completed buy sets it and a
  completed sell clears it. This is how backtrader maintains
  `self.position`; backtrader itself is not part of this model.
- **Invariant.** `Consistent` says: a buy is pending only while flat, a close
  only while holding, and a held position has its entry price and commission
  recorded. Also, `win_count` plus the one pending-or-held buy never exceeds
  `trade_count`. So the reported rate always lies in [0, 100].

Behaviour of the code worth noting:

- `trade_count` is incremented when a buy is *submitted* (strategy.py:72),
  not when a trade completes. A rejected buy and a position still open at the
  end both count, which lowers the reported rate.
- The profit of a sell is `executed price - buy_price - buy_comm - sell
  commission` (strategy.py:112). It mixes a per-unit price difference with
  total commissions and does not involve the size.
- The entry threshold is the literal 4 (strategy.py:67), not a parameter.

## Model

| member | source | states |
|---|---|---|
| Signals.CountTrue | strategy.py:65 | the number of true conditions never exceeds the number of conditions |
| Signals.CountTrueIsCardinality | strategy.py:65 | the sum over the booleans equals the number of distinct indices whose condition holds |
| Signals.CountTrueMonotone | strategy.py:65-67 | making conditions true (pointwise) never lowers the count |
| Signals.CountTrueExtremes | strategy.py:65 | the count equals the length iff all conditions hold, and is zero iff none holds |
| Signals.ConditionsMet | strategy.py:47-65 | the score of a bar is at most 6 and is the number of distinct entry conditions among trend_up, rsi_good, bb_signal, macd_signal, volume_good, sma_trend that hold |
| Signals.EntryMonotone | strategy.py:47-67 | a bar satisfying every entry condition another entering bar satisfies also triggers entry |
| Signals.TrendUp | strategy.py:47 | close above the long SMA; its role in the score is stated by ConditionsMet and BuyIffMajority |
| Signals.RsiGood | strategy.py:50 | RSI strictly between 35 and 50; stated through ConditionsMet and BuyIffMajority |
| Signals.BbSignal | strategy.py:53 | close at most 1.02 times the lower Bollinger band; stated through ConditionsMet and BuyIffMajority |
| Signals.MacdSignal | strategy.py:56 | MACD line above its signal line; stated through ConditionsMet and BuyIffMajority |
| Signals.VolumeGood | strategy.py:59 | volume above 1.1 times its SMA; stated through ConditionsMet and BuyIffMajority |
| Signals.SmaTrend | strategy.py:62 | short SMA above long SMA; stated through ConditionsMet and BuyIffMajority |
| Signals.EntryConditions | strategy.py:47-65 | the six conditions in the source's order, exactly six of them; their count is characterised by ConditionsMet and CountTrueIsCardinality |
| Signals.ShouldEnter | strategy.py:67 | at least four conditions hold; BuyIffMajority and EntryMonotone state what it decides |
| Signals.ProfitPct | strategy.py:78 | the result times the entry price is the close's gain over the entry price |
| Signals.Triggered | strategy.py:81-98 | each exit trigger on its own; ExitTrigger, ExitTriggerUnique and TrendExitConditions state how they combine |
| Signals.ExitTrigger | strategy.py:78-100 | the chosen exit holds and no trigger of higher priority holds; no exit is chosen iff no trigger holds |
| Signals.ExitTriggerUnique | strategy.py:80-100 | any holding trigger with no holding trigger ahead of it is exactly the exit chosen |
| Signals.TrendExitConditions | strategy.py:96-98 | a trend exit implies close < sma_short < sma_long, 0.02 < profit < take-profit, profit > -stop-loss and rsi not overbought |
| Signals.ProfitAndLossExclusive | strategy.py:81-87 | when take-profit exceeds minus stop-loss, the two triggers never hold together |
| Signals.DefaultExits | strategy.py:7-15 | under the declared defaults (`DEFAULTS`: periods 14/20/50, RSI 70/30, stop-loss 5%, take-profit 8%) take-profit and stop-loss never hold together, and a trend exit takes a gain strictly between 2% and 8% |
| Lifecycle.InitialConsistent | strategy.py:26-31 | the initial fields (no order, no entry price or commission, zero counters, flat) satisfy the invariant |
| Lifecycle.Decide | strategy.py:33-100 | nothing is submitted while an order is pending or during warm-up; a buy only when flat, with at least four conditions, sized so that size × close = 0.95 × cash; a close only when holding, for the exit ExitTrigger chooses; fully characterised by PendingOrderBlocks, WarmupBlocks, BuyIffMajority, ExitPriority and NextFaults |
| Lifecycle.AfterNext | strategy.py:68-99 | a bar never touches win_count, buy_comm or the position; trade_count grows by one exactly on a buy submission; buy_price changes only then; any submission leaves an order pending |
| Lifecycle.PendingOrderBlocks | strategy.py:35-36 | with an order pending the bar submits nothing and changes no field |
| Lifecycle.WarmupBlocks | strategy.py:39-40 | with fewer than sma_long bars seen the bar submits nothing and changes no field |
| Lifecycle.BuyIffMajority | strategy.py:45-67 | flat, unblocked: a buy is submitted iff the close is nonzero and at least four distinct entry conditions hold; otherwise it holds or raises |
| Lifecycle.BuySubmission | strategy.py:68-72 | a buy has size × close = 0.95 × cash, sets buy_price to the close, adds exactly 1 to trade_count, makes the buy pending and keeps win_count, buy_comm and the position |
| Lifecycle.ExitPriority | strategy.py:76-100 | holding, unblocked: the bar submits a close for the first trigger that holds, or nothing and no change when none holds; at most one close |
| Lifecycle.NextFaults | strategy.py:69-78 | from a consistent state no TypeError arises; ZeroDivisionError arises exactly for a zero close at entry or a zero entry price while holding, and changes nothing |
| Lifecycle.NextKeepsConsistent | strategy.py:33-100 | every bar keeps the invariant |
| Lifecycle.SellProfit | strategy.py:112-113 | the profit is positive iff the executed price exceeds buy_price + buy_comm + sell commission |
| Lifecycle.AfterNotify | strategy.py:102-120 | a notification never changes trade_count, changes win_count only by one on a completed sell, and can raise only TypeError; described in full by NotifyStillPending, NotifyClearsOrder, CompletedBuy, CompletedSell and NotifyFaults |
| Lifecycle.NotifyFaults | strategy.py:112 | a notification raises exactly for a completed sell with buy_price or buy_comm unset, and the exception is TypeError |
| Lifecycle.NotifyStillPending | strategy.py:103-104 | Submitted and Accepted leave every field, the order included, unchanged |
| Lifecycle.NotifyClearsOrder | strategy.py:117-120 | any other status clears the order; statuses other than Completed change nothing else |
| Lifecycle.CompletedBuy | strategy.py:106-109 | a completed buy overwrites buy_price and buy_comm with the executed values, opens the position and keeps both counters |
| Lifecycle.CompletedSell | strategy.py:111-114 | a completed sell adds 1 to win_count iff executed price > buy_price + buy_comm + sell commission, otherwise keeps it, and keeps trade_count and the entry fields |
| Lifecycle.NotifyKeepsConsistent | strategy.py:102-120 | a notification for the pending order never raises from a consistent state and keeps the invariant |
| Lifecycle.Step | strategy.py:33-120 | one callback raises or moves each counter up by at most one and never down |
| Lifecycle.RunKeepsConsistent | strategy.py:33-120 | over any sequence of bars and notifications (each about the pending order) from a consistent state, TypeError never occurs and the state at the end is consistent, with win_count ≤ trade_count with the rate in [0, 100] |
| Lifecycle.RunCounters | strategy.py:72-114 | along a run neither trade_count nor win_count decreases, and each grows by at most one per callback |
| Lifecycle.WinRate | strategy.py:123 | the rate is 0 with no trades, otherwise rate × trades = 100 × wins, and it lies in [0, 100] when wins ≤ trades |
| Lifecycle.WinRateExtremes | strategy.py:123 | the rate is 100 iff every counted trade won, and 0 iff no trade was counted or none won |
| Lifecycle.WinRateBounded | strategy.py:123 | in every consistent state win_count ≤ trade_count and the rate lies in [0, 100] |
| HighWinRate.Strategy.constructor | strategy.py:26-31 | a new strategy has the initial fields and satisfies the invariant |
| HighWinRate.Strategy.Next | strategy.py:33-100 | the result is the bar's decision, the new fields are its effect on the old ones, and the invariant is kept |
| HighWinRate.Strategy.NotifyOrder | strategy.py:102-120 | the new fields are the notification's effect on the old ones, which never raises, and the invariant is kept |
| HighWinRate.Strategy.Stop | strategy.py:122-124 | the reported rate is the win rate of the counters and lies in [0, 100] |

## Left out

- `run_strategy` and the `__main__` block (strategy.py:127-214) are left out. They cover data download, column fixing, Cerebro and broker setup, analyzers, plotting and printing, which are I/O and framework wiring.
- The RSI, SMA, Bollinger Bands and MACD indicators (strategy.py:19-24) are library code. Their current values are inputs of `Next`.
- The trade analyzer, Sharpe ratio, drawdown and returns statistics are library code over float series, so they are left out.
- Broker fill mechanics and cash accounting are left out. The executed price and commission enter only as notification fields, and the cash only as an input.
- Floating-point rounding is not modelled: every price and ratio is a `real`.
- `print` output is left out, together with the order status text that the Canceled, Margin and Rejected branch only prints.
- Partial fills are left out. A Partial notification clears the pending order as the code does, but the position flag reacts only to Completed notifications.
- backtrader's `buy` and `close` return no order when the size is zero. The model assumes every submission yields a pending order.
- HighWinRate.Strategy.NotifyOrder: requires the notification to concern the order the strategy is waiting on (same side). The framework guarantees this, and the invariant needs it. `Lifecycle.AfterNotify` itself handles every notification.
