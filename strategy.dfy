/** The strategy object: the fields it updates in place from bar to bar and
    from notification to notification, and the three callbacks the host
    framework invokes. Each callback is proved against the value-level
    specification in Lifecycle. */
module HighWinRate {
  import opened Signals
  import opened Lifecycle

  class Strategy {
    const params: Params
    var order: Option<Order>
    var buyPrice: Option<real>
    var buyComm: Option<real>
    var tradeCount: nat
    var winCount: nat
    /** Whether the broker holds a position for the strategy: set when a buy
        completes, cleared when a sell completes. */
    var inPosition: bool

    /** The fields as a value. */
    function State(): StrategyState
      reads this
    {
      StrategyState(order, buyPrice, buyComm, tradeCount, winCount, inPosition)
    }

    ghost predicate Valid()
      reads this
    {
      Consistent(State())
    }

    /** No order, no entry price or commission, zero counters, flat. */
    constructor (p: Params)
      ensures params == p && State() == INITIAL
      ensures Valid()
    {
      params := p;
      order := None;
      buyPrice := None;
      buyComm := None;
      tradeCount := 0;
      winCount := 0;
      inPosition := false;
    }

    /** Called once per bar with the number of bars seen, the indicator values
        and the broker's cash. */
    method Next(barsSeen: nat, s: Snapshot, cash: real) returns (r: Result<Action>)
      requires Valid()
      modifies this
      ensures Valid()
      ensures r == Decide(params, old(State()), barsSeen, s, cash)
      ensures State() == AfterNext(old(State()), r, s.close)
    {
      if order.Some? {
        return Ok(Hold);
      }
      if barsSeen < params.smaLong {
        return Ok(Hold);
      }
      var currentPrice := s.close;
      if !inPosition {
        var conditionsMet := ConditionsMet(s);
        if conditionsMet >= ENTRY_THRESHOLD {
          if currentPrice == 0.0 {
            return Raised(ZeroDivisionError);
          }
          var cashAvailable := cash * CASH_FRACTION;
          var sizeToBuy := cashAvailable / currentPrice;
          order := Some(Buy(sizeToBuy));
          buyPrice := Some(currentPrice);
          tradeCount := tradeCount + 1;
          r := Ok(SubmitBuy(sizeToBuy, conditionsMet));
        } else {
          r := Ok(Hold);
        }
      } else {
        var entry := buyPrice.value;
        if entry == 0.0 {
          return Raised(ZeroDivisionError);
        }
        var exit := ExitTrigger(params, s, entry);
        match exit
        case None =>
          r := Ok(Hold);
        case Some(reason) =>
          order := Some(Close);
          r := Ok(SubmitClose(reason));
      }
    }

    /** Called by the framework about the order the strategy is waiting on. */
    method NotifyOrder(n: Notification)
      requires Valid() && ForPending(State(), n)
      modifies this
      ensures Valid()
      ensures AfterNotify(old(State()), n) == Ok(State())
    {
      if n.status == Submitted || n.status == Accepted {
        return;
      }
      if n.status == Completed {
        if n.isBuy {
          buyPrice := Some(n.executed.price);
          buyComm := Some(n.executed.comm);
          inPosition := true;
        } else {
          var profit := n.executed.price - buyPrice.value - buyComm.value - n.executed.comm;
          if profit > 0.0 {
            winCount := winCount + 1;
          }
          inPosition := false;
        }
      }
      order := None;
    }

    /** Called at the end of the run: the percentage of counted trades that won. */
    method Stop() returns (rate: real)
      requires Valid()
      ensures rate == WinRate(winCount, tradeCount)
      ensures 0.0 <= rate <= 100.0
      ensures tradeCount == 0 ==> rate == 0.0
    {
      rate := if tradeCount > 0 then (winCount as real / tradeCount as real) * 100.0 else 0.0;
    }
  }

  /** A short session: a buy on a bar meeting the entry rule, its fill, a
      take-profit close on a later bar, and its fill; the profitable sell is
      counted as one win out of one trade. */
  method TakeProfitSession(cash: real)
  {
    var strat := new Strategy(DEFAULTS);
    var entryBar := Snapshot(100.0, 2000.0, 40.0, 95.0, 90.0, 99.0, 1.0, 0.5, 1000.0);
    CountTrueExtremes(EntryConditions(entryBar));
    assert ConditionsMet(entryBar) == 6;
    var r := strat.Next(50, entryBar, cash);
    assert r == Ok(SubmitBuy(cash * 0.95 / 100.0, 6));
    strat.NotifyOrder(Notification(Completed, true, Execution(100.0, 0.1)));
    var exitBar := Snapshot(110.0, 1000.0, 60.0, 105.0, 95.0, 90.0, 1.0, 0.5, 1000.0);
    assert Triggered(DEFAULTS, exitBar, 100.0, TakeProfit);
    r := strat.Next(51, exitBar, cash);
    assert r == Ok(SubmitClose(TakeProfit));
    strat.NotifyOrder(Notification(Completed, false, Execution(110.0, 0.11)));
    var rate := strat.Stop();
    assert strat.winCount == 1 && strat.tradeCount == 1 && rate == 100.0;
  }
}
