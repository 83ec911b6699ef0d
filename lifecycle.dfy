/** The strategy's bookkeeping as values: the fields it keeps between bars, the
    decision taken on each bar, the effect of that decision on the fields, the
    effect of an order notification, and the win rate reported at the end.
    Python exceptions the code can raise are results, not preconditions. */
module Lifecycle {
  import opened Signals

  /** The order the strategy is waiting on: a buy of a given size, or the close
      of the whole position. */
  datatype Order = Buy(size: real) | Close

  /** Order statuses the host framework reports. */
  datatype Status =
    Created | Submitted | Accepted | Partial | Completed | Canceled | Expired | Margin | Rejected

  /** Executed price and commission reported with a notification. */
  datatype Execution = Execution(price: real, comm: real)

  datatype Notification = Notification(status: Status, isBuy: bool, executed: Execution)

  /** Python exceptions the strategy code can raise. */
  datatype Fault = ZeroDivisionError | TypeError

  datatype Result<+T> = Ok(value: T) | Raised(fault: Fault)

  /** What one bar's evaluation submits: nothing, a buy (with its size and the
      number of entry conditions met), or a close (with the trigger). */
  datatype Action = Hold | SubmitBuy(size: real, conditions: nat) | SubmitClose(reason: ExitReason)

  /** The fields the strategy keeps: the pending order, the entry price and
      commission (unset until first written), the two counters, and whether a
      position is held. */
  datatype StrategyState = StrategyState(
    order: Option<Order>,
    buyPrice: Option<real>,
    buyComm: Option<real>,
    tradeCount: nat,
    winCount: nat,
    inPosition: bool)

  const INITIAL: StrategyState := StrategyState(None, None, None, 0, 0, false)

  /** Share of the available cash spent on a buy. */
  const CASH_FRACTION: real := 0.95

  predicate PendingBuy(st: StrategyState)
  {
    st.order.Some? && st.order.value.Buy?
  }

  /** The invariant every step keeps. A buy is only pending while flat and a
      close only while holding; a held position has its entry price and
      commission recorded; and every win, and the buy that is pending or held,
      was counted as a trade when it was submitted. */
  predicate Consistent(st: StrategyState)
  {
    && (PendingBuy(st) ==> !st.inPosition)
    && (st.order == Some(Close) ==> st.inPosition)
    && (st.inPosition ==> st.buyPrice.Some? && st.buyComm.Some?)
    && st.winCount + (if st.inPosition || PendingBuy(st) then 1 else 0) <= st.tradeCount
  }

  lemma InitialConsistent()
    ensures Consistent(INITIAL)
    ensures INITIAL.order.None? && !INITIAL.inPosition
  {
  }

  // ---------------------------------------------------------------------------
  // One bar

  /** The decision taken on a bar, given the number of bars seen so far and the
      cash the broker reports. */
  function Decide(p: Params, st: StrategyState, barsSeen: nat, s: Snapshot, cash: real): (r: Result<Action>)
    ensures st.order.Some? || barsSeen < p.smaLong ==> r == Ok(Hold)
    ensures r.Ok? && r.value.SubmitBuy? ==>
      !st.inPosition && ShouldEnter(s) && r.value.size * s.close == cash * CASH_FRACTION
    ensures r.Ok? && r.value.SubmitClose? ==>
      st.inPosition && st.buyPrice.Some? && st.buyPrice.value != 0.0 &&
      ExitTrigger(p, s, st.buyPrice.value) == Some(r.value.reason)
  {
    if st.order.Some? then Ok(Hold)
    else if barsSeen < p.smaLong then Ok(Hold)
    else if !st.inPosition then
      if ShouldEnter(s) then
        if s.close == 0.0 then Raised(ZeroDivisionError)
        else Ok(SubmitBuy(cash * CASH_FRACTION / s.close, ConditionsMet(s)))
      else Ok(Hold)
    else
      match st.buyPrice
      case None => Raised(TypeError)
      case Some(bp) =>
        if bp == 0.0 then Raised(ZeroDivisionError)
        else
          match ExitTrigger(p, s, bp)
          case None => Ok(Hold)
          case Some(e) => Ok(SubmitClose(e))
  }

  /** The fields after a bar on which the decision was r and the close was close. */
  function AfterNext(st: StrategyState, r: Result<Action>, close: real): (st': StrategyState)
    ensures st'.winCount == st.winCount && st'.inPosition == st.inPosition && st'.buyComm == st.buyComm
    ensures st'.tradeCount == st.tradeCount + (if r.Ok? && r.value.SubmitBuy? then 1 else 0)
    ensures r.Ok? && !r.value.Hold? ==> st'.order.Some?
    ensures !(r.Ok? && r.value.SubmitBuy?) ==> st'.buyPrice == st.buyPrice
  {
    match r
    case Ok(SubmitBuy(size, _)) =>
      st.(order := Some(Buy(size)), buyPrice := Some(close), tradeCount := st.tradeCount + 1)
    case Ok(SubmitClose(_)) => st.(order := Some(Close))
    case _ => st
  }

  /** While an order is pending the bar is ignored. */
  lemma PendingOrderBlocks(p: Params, st: StrategyState, barsSeen: nat, s: Snapshot, cash: real)
    requires st.order.Some?
    ensures Decide(p, st, barsSeen, s, cash) == Ok(Hold)
    ensures AfterNext(st, Decide(p, st, barsSeen, s, cash), s.close) == st
  {
  }

  /** Before sma_long bars have been seen the bar is ignored. */
  lemma WarmupBlocks(p: Params, st: StrategyState, barsSeen: nat, s: Snapshot, cash: real)
    requires barsSeen < p.smaLong
    ensures Decide(p, st, barsSeen, s, cash) == Ok(Hold)
    ensures AfterNext(st, Decide(p, st, barsSeen, s, cash), s.close) == st
  {
  }

  /** Flat, with no pending order and past the warm-up, the strategy submits a
      buy exactly when at least four distinct entry conditions hold (a zero
      close makes the sizing raise instead). */
  lemma BuyIffMajority(p: Params, st: StrategyState, barsSeen: nat, s: Snapshot, cash: real)
    requires st.order.None? && barsSeen >= p.smaLong && !st.inPosition
    ensures var r := Decide(p, st, barsSeen, s, cash);
      (r.Ok? && r.value.SubmitBuy?) <==> s.close != 0.0 && |TrueIndices(EntryConditions(s))| >= 4
    ensures var r := Decide(p, st, barsSeen, s, cash);
      (r.Ok? && !r.value.SubmitBuy?) ==> r.value == Hold
  {
  }

  /** A buy submission spends 95% of the cash at the close, records the close
      as the entry price, counts one more trade, makes the buy pending and
      touches nothing else. */
  lemma BuySubmission(p: Params, st: StrategyState, barsSeen: nat, s: Snapshot, cash: real)
    requires Decide(p, st, barsSeen, s, cash).Ok?
    requires Decide(p, st, barsSeen, s, cash).value.SubmitBuy?
    ensures var a := Decide(p, st, barsSeen, s, cash).value;
      a.size * s.close == cash * CASH_FRACTION && ENTRY_THRESHOLD <= a.conditions <= 6
    ensures var a := Decide(p, st, barsSeen, s, cash).value;
      AfterNext(st, Ok(a), s.close)
      == StrategyState(Some(Buy(a.size)), Some(s.close), st.buyComm, st.tradeCount + 1, st.winCount, false)
  {
  }

  /** Holding, with no pending order and past the warm-up, the strategy
      submits a close for the first exit trigger that holds, and changes
      nothing when none holds. */
  lemma ExitPriority(p: Params, st: StrategyState, barsSeen: nat, s: Snapshot, cash: real)
    requires st.order.None? && barsSeen >= p.smaLong && st.inPosition
    requires st.buyPrice.Some? && st.buyPrice.value != 0.0
    ensures var r := Decide(p, st, barsSeen, s, cash);
      r.Ok? && (r.value.Hold? || r.value.SubmitClose?)
    ensures var r := Decide(p, st, barsSeen, s, cash);
      r.value.Hold? <==> forall e :: !Triggered(p, s, st.buyPrice.value, e)
    ensures var r := Decide(p, st, barsSeen, s, cash);
      r.value.SubmitClose? ==>
        Triggered(p, s, st.buyPrice.value, r.value.reason) &&
        forall e :: Priority(e) < Priority(r.value.reason) ==> !Triggered(p, s, st.buyPrice.value, e)
    ensures var r := Decide(p, st, barsSeen, s, cash);
      AfterNext(st, r, s.close) == if r.value.Hold? then st else st.(order := Some(Close))
  {
  }

  /** A consistent state never raises TypeError, and a bar that raises
      changes nothing. */
  lemma NextFaults(p: Params, st: StrategyState, barsSeen: nat, s: Snapshot, cash: real)
    requires Consistent(st)
    ensures Decide(p, st, barsSeen, s, cash) != Raised(TypeError)
    ensures Decide(p, st, barsSeen, s, cash) == Raised(ZeroDivisionError) <==>
      st.order.None? && barsSeen >= p.smaLong &&
      if st.inPosition then st.buyPrice == Some(0.0) else ShouldEnter(s) && s.close == 0.0
    ensures Decide(p, st, barsSeen, s, cash).Raised? ==>
      AfterNext(st, Decide(p, st, barsSeen, s, cash), s.close) == st
  {
  }

  /** Every bar keeps the invariant. */
  lemma NextKeepsConsistent(p: Params, st: StrategyState, barsSeen: nat, s: Snapshot, cash: real)
    requires Consistent(st)
    ensures Consistent(AfterNext(st, Decide(p, st, barsSeen, s, cash), s.close))
  {
  }

  // ---------------------------------------------------------------------------
  // Order notifications

  /** Profit the strategy attributes to a completed sell: exit price less
      entry price less both commissions. It is per unit of price, the
      commissions are totals, and the size does not enter. */
  function SellProfit(exitPrice: real, buyPrice: real, buyComm: real, sellComm: real): (r: real)
    ensures r > 0.0 <==> exitPrice > buyPrice + buyComm + sellComm
  {
    exitPrice - buyPrice - buyComm - sellComm
  }

  /** The fields after a notification. On a completed sell with no recorded
      entry price or commission the subtraction raises and nothing changes. */
  function AfterNotify(st: StrategyState, n: Notification): (r: Result<StrategyState>)
    ensures r.Ok? ==> r.value.tradeCount == st.tradeCount
    ensures r.Ok? ==> r.value.winCount == st.winCount || (r.value.winCount == st.winCount + 1 && n.status == Completed && !n.isBuy)
    ensures r.Raised? ==> r.fault == TypeError
  {
    if n.status == Submitted || n.status == Accepted then Ok(st)
    else if n.status == Completed then
      if n.isBuy then
        Ok(st.(buyPrice := Some(n.executed.price), buyComm := Some(n.executed.comm),
               inPosition := true, order := None))
      else if st.buyPrice.None? || st.buyComm.None? then Raised(TypeError)
      else
        var profit := SellProfit(n.executed.price, st.buyPrice.value, st.buyComm.value, n.executed.comm);
        Ok(st.(winCount := if profit > 0.0 then st.winCount + 1 else st.winCount,
               inPosition := false, order := None))
    else Ok(st.(order := None))
  }

  /** The framework notifies the strategy about the order it is waiting on. */
  predicate ForPending(st: StrategyState, n: Notification)
  {
    st.order.Some? && n.isBuy == st.order.value.Buy?
  }

  /** A notification raises exactly for a completed sell that finds the entry
      price or commission unset, and then it raises TypeError. */
  lemma NotifyFaults(st: StrategyState, n: Notification)
    ensures AfterNotify(st, n).Raised? <==>
      n.status == Completed && !n.isBuy && (st.buyPrice.None? || st.buyComm.None?)
    ensures AfterNotify(st, n).Raised? ==> AfterNotify(st, n) == Raised(TypeError)
  {
  }

  /** Submitted and Accepted leave everything as it is, the order included. */
  lemma NotifyStillPending(st: StrategyState, n: Notification)
    requires n.status == Submitted || n.status == Accepted
    ensures AfterNotify(st, n) == Ok(st)
  {
  }

  /** Every other status clears the pending order; all of them except
      Completed touch nothing else. */
  lemma NotifyClearsOrder(st: StrategyState, n: Notification)
    requires n.status != Submitted && n.status != Accepted
    ensures AfterNotify(st, n).Ok? ==> AfterNotify(st, n).value.order.None?
    ensures n.status != Completed ==> AfterNotify(st, n) == Ok(st.(order := None))
  {
  }

  /** A completed buy overwrites the entry price and commission with the
      executed values, opens the position and leaves the counters alone. */
  lemma CompletedBuy(st: StrategyState, n: Notification)
    requires n.status == Completed && n.isBuy
    ensures AfterNotify(st, n).Ok?
    ensures var st' := AfterNotify(st, n).value;
      st'.buyPrice == Some(n.executed.price) && st'.buyComm == Some(n.executed.comm) &&
      st'.tradeCount == st.tradeCount && st'.winCount == st.winCount && st'.inPosition
  {
  }

  /** A completed sell counts a win exactly when the executed price exceeds
      the entry price plus both commissions, and closes the position. */
  lemma CompletedSell(st: StrategyState, n: Notification)
    requires n.status == Completed && !n.isBuy
    requires st.buyPrice.Some? && st.buyComm.Some?
    ensures AfterNotify(st, n).Ok?
    ensures var st' := AfterNotify(st, n).value;
      && (st'.winCount == st.winCount + 1 <==>
           n.executed.price > st.buyPrice.value + st.buyComm.value + n.executed.comm)
      && (st'.winCount == st.winCount || st'.winCount == st.winCount + 1)
      && st'.tradeCount == st.tradeCount && !st'.inPosition
      && st'.buyPrice == st.buyPrice && st'.buyComm == st.buyComm
  {
  }

  /** A notification for the pending order never raises from a consistent
      state, and keeps the invariant. */
  lemma NotifyKeepsConsistent(st: StrategyState, n: Notification)
    requires Consistent(st) && ForPending(st, n)
    ensures AfterNotify(st, n).Ok?
    ensures Consistent(AfterNotify(st, n).value)
  {
  }

  // ---------------------------------------------------------------------------
  // A whole run

  /** One callback from the framework: a bar, or a notification. */
  datatype Event = BarEvent(barsSeen: nat, snapshot: Snapshot, cash: real) | OrderEvent(n: Notification)

  /** The fields after one callback, or the exception it raises. */
  function Step(p: Params, st: StrategyState, e: Event): (r: Result<StrategyState>)
    ensures r.Ok? ==> st.tradeCount <= r.value.tradeCount <= st.tradeCount + 1
    ensures r.Ok? ==> st.winCount <= r.value.winCount <= st.winCount + 1
  {
    match e
    case BarEvent(barsSeen, s, cash) =>
      var r := Decide(p, st, barsSeen, s, cash);
      if r.Raised? then Raised(r.fault) else Ok(AfterNext(st, r, s.close))
    case OrderEvent(n) => AfterNotify(st, n)
  }

  /** The fields after a sequence of callbacks; the first exception ends the run. */
  function Run(p: Params, st: StrategyState, events: seq<Event>): (r: Result<StrategyState>)
    decreases |events|
  {
    if events == [] then Ok(st)
    else
      match Step(p, st, events[0])
      case Raised(f) => Raised(f)
      case Ok(st') => Run(p, st', events[1..])
  }

  /** Every notification of the run concerns the order pending when it arrives. */
  predicate Delivered(p: Params, st: StrategyState, events: seq<Event>)
    decreases |events|
  {
    events == [] ||
    ((events[0].OrderEvent? ==> ForPending(st, events[0].n)) &&
     match Step(p, st, events[0])
     case Raised(_) => true
     case Ok(st') => Delivered(p, st', events[1..]))
  }

  /** Over any run whose notifications concern the pending order, starting
      from a consistent state: no TypeError is ever raised, every state
      reached is consistent, so win_count never exceeds trade_count and the
      win rate reported at the end lies in [0, 100]. */
  lemma {:induction false} RunKeepsConsistent(p: Params, st: StrategyState, events: seq<Event>)
    requires Consistent(st) && Delivered(p, st, events)
    decreases |events|
    ensures Run(p, st, events) != Raised(TypeError)
    ensures Run(p, st, events).Ok? ==> Consistent(Run(p, st, events).value)
    ensures Run(p, st, events).Ok? ==>
      var fin := Run(p, st, events).value;
      fin.winCount <= fin.tradeCount && 0.0 <= WinRate(fin.winCount, fin.tradeCount) <= 100.0
  {
    if events != [] {
      match events[0] {
        case BarEvent(barsSeen, s, cash) =>
          NextFaults(p, st, barsSeen, s, cash);
          NextKeepsConsistent(p, st, barsSeen, s, cash);
        case OrderEvent(n) =>
          NotifyKeepsConsistent(st, n);
      }
      match Step(p, st, events[0])
      case Raised(_) =>
      case Ok(st') =>
        RunKeepsConsistent(p, st', events[1..]);
    } else {
      WinRateBounded(st);
    }
  }

  /** Neither counter ever decreases along a run, and each callback adds at
      most one to each of them. */
  lemma {:induction false} RunCounters(p: Params, st: StrategyState, events: seq<Event>)
    requires Run(p, st, events).Ok?
    decreases |events|
    ensures var fin := Run(p, st, events).value;
      st.tradeCount <= fin.tradeCount <= st.tradeCount + |events| &&
      st.winCount <= fin.winCount <= st.winCount + |events|
  {
    if events != [] {
      match Step(p, st, events[0])
      case Ok(st') =>
        RunCounters(p, st', events[1..]);
    }
  }

  // ---------------------------------------------------------------------------
  // Win rate

  /** Percentage of counted trades that were wins; zero when no trade was counted. */
  function WinRate(wins: nat, trades: nat): (r: real)
    ensures trades == 0 ==> r == 0.0
    ensures trades > 0 ==> r * (trades as real) == 100.0 * (wins as real)
    ensures wins <= trades ==> 0.0 <= r <= 100.0
  {
    if trades > 0 then (wins as real / trades as real) * 100.0 else 0.0
  }

  /** The rate is 100 exactly when every counted trade won, and 0 exactly
      when none did or none was counted. */
  lemma WinRateExtremes(wins: nat, trades: nat)
    requires wins <= trades
    ensures WinRate(wins, trades) == 100.0 <==> trades > 0 && wins == trades
    ensures WinRate(wins, trades) == 0.0 <==> trades == 0 || wins == 0
  {
  }

  /** In every consistent state the win rate is a percentage. */
  lemma WinRateBounded(st: StrategyState)
    requires Consistent(st)
    ensures st.winCount <= st.tradeCount
    ensures 0.0 <= WinRate(st.winCount, st.tradeCount) <= 100.0
  {
  }
}
