/** The per-bar signal evaluation of the high-win-rate strategy: the six entry
    conditions scored against a threshold, and the four exit triggers checked in
    a fixed priority order. Indicator values are inputs: what the indicator
    library computes for the current bar is taken as given. */
module Signals {

  datatype Option<+T> = None | Some(value: T)

  /** Strategy parameters. Only the RSI threshold, the long SMA period (the
      warm-up length) and the two exit percentages are read by the decision
      logic; the other periods configure the indicators. */
  datatype Params = Params(
    rsiPeriod: nat,
    rsiOverbought: real,
    rsiOversold: real,
    smaShort: nat,
    smaLong: nat,
    stopLossPct: real,
    takeProfitPct: real)

  /** The parameter defaults the strategy declares. */
  const DEFAULTS: Params := Params(14, 70.0, 30.0, 20, 50, 0.05, 0.08)

  /** What the strategy sees on the current bar: its close and volume, and the
      current value of each indicator. */
  datatype Snapshot = Snapshot(
    close: real,
    volume: real,
    rsi: real,
    smaShort: real,
    smaLong: real,
    bbBottom: real,
    macd: real,
    macdSignal: real,
    volumeSma: real)

  /** Fixed constants of the entry and exit rules. */
  const ENTRY_THRESHOLD: nat := 4
  const RSI_ENTRY_LOW: real := 35.0
  const RSI_ENTRY_HIGH: real := 50.0
  const BB_TOLERANCE: real := 1.02
  const VOLUME_FACTOR: real := 1.1
  const TREND_PROFIT_FLOOR: real := 0.02

  // ---------------------------------------------------------------------------
  // Entry scoring

  predicate TrendUp(s: Snapshot) { s.close > s.smaLong }
  predicate RsiGood(s: Snapshot) { RSI_ENTRY_LOW < s.rsi < RSI_ENTRY_HIGH }
  predicate BbSignal(s: Snapshot) { s.close <= s.bbBottom * BB_TOLERANCE }
  predicate MacdSignal(s: Snapshot) { s.macd > s.macdSignal }
  predicate VolumeGood(s: Snapshot) { s.volume > s.volumeSma * VOLUME_FACTOR }
  predicate SmaTrend(s: Snapshot) { s.smaShort > s.smaLong }

  /** The six entry conditions, in the order the strategy lists them. */
  function EntryConditions(s: Snapshot): (c: seq<bool>)
    ensures |c| == 6
  {
    [TrendUp(s), RsiGood(s), BbSignal(s), MacdSignal(s), VolumeGood(s), SmaTrend(s)]
  }

  /** Number of true values in a list of booleans (Python's sum over bools). */
  function CountTrue(c: seq<bool>): (n: nat)
    ensures n <= |c|
  {
    if c == [] then 0
    else CountTrue(c[..|c| - 1]) + (if c[|c| - 1] then 1 else 0)
  }

  /** The indices of the conditions that hold. */
  function TrueIndices(c: seq<bool>): set<nat>
  {
    set i: nat | i < |c| && c[i]
  }

  /** The count is the number of distinct conditions that hold. */
  lemma {:induction false} CountTrueIsCardinality(c: seq<bool>)
    ensures CountTrue(c) == |TrueIndices(c)|
  {
    if c != [] {
      var k := |c| - 1;
      CountTrueIsCardinality(c[..k]);
      if c[k] {
        assert TrueIndices(c) == TrueIndices(c[..k]) + {k};
      } else {
        assert TrueIndices(c) == TrueIndices(c[..k]);
      }
    }
  }

  /** Making conditions true never lowers the count. */
  lemma {:induction false} CountTrueMonotone(c: seq<bool>, d: seq<bool>)
    requires |c| == |d|
    requires forall i :: 0 <= i < |c| && c[i] ==> d[i]
    ensures CountTrue(c) <= CountTrue(d)
  {
    if c != [] {
      var k := |c| - 1;
      CountTrueMonotone(c[..k], d[..k]);
    }
  }

  /** The number of entry conditions met on this bar. */
  function ConditionsMet(s: Snapshot): (n: nat)
    ensures n <= 6
    ensures n == |TrueIndices(EntryConditions(s))|
  {
    CountTrueIsCardinality(EntryConditions(s));
    CountTrue(EntryConditions(s))
  }

  /** A flat strategy buys when at least four of the six conditions hold. */
  predicate ShouldEnter(s: Snapshot)
  {
    ConditionsMet(s) >= ENTRY_THRESHOLD
  }

  /** Entry is monotone: a bar on which every condition that held before still
      holds (and possibly more) is still an entry. */
  lemma EntryMonotone(s: Snapshot, t: Snapshot)
    requires forall i :: 0 <= i < 6 && EntryConditions(s)[i] ==> EntryConditions(t)[i]
    requires ShouldEnter(s)
    ensures ShouldEnter(t)
  {
    CountTrueMonotone(EntryConditions(s), EntryConditions(t));
  }

  /** All six conditions hold exactly when the count is six; none when zero. */
  lemma {:induction false} CountTrueExtremes(c: seq<bool>)
    ensures CountTrue(c) == |c| <==> forall i :: 0 <= i < |c| ==> c[i]
    ensures CountTrue(c) == 0 <==> forall i :: 0 <= i < |c| ==> !c[i]
  {
    if c != [] {
      var k := |c| - 1;
      CountTrueExtremes(c[..k]);
      assert forall i :: 0 <= i < k ==> c[..k][i] == c[i];
    }
  }

  // ---------------------------------------------------------------------------
  // Exit priority

  datatype ExitReason = TakeProfit | StopLoss | RsiOverbought | TrendReversal

  /** Position of each trigger in the order the strategy tests them. */
  function Priority(e: ExitReason): (r: nat)
  {
    match e
    case TakeProfit => 0
    case StopLoss => 1
    case RsiOverbought => 2
    case TrendReversal => 3
  }

  /** Relative gain of the close over the entry price: the fraction of the
      entry price by which the close exceeds it. */
  function ProfitPct(close: real, buyPrice: real): (r: real)
    requires buyPrice != 0.0
    ensures r * buyPrice == close - buyPrice
  {
    (close - buyPrice) / buyPrice
  }

  /** Whether one exit trigger holds on this bar, taken on its own. */
  predicate Triggered(p: Params, s: Snapshot, buyPrice: real, e: ExitReason)
    requires buyPrice != 0.0
  {
    var pct := ProfitPct(s.close, buyPrice);
    match e
    case TakeProfit => pct >= p.takeProfitPct
    case StopLoss => pct <= -p.stopLossPct
    case RsiOverbought => s.rsi > p.rsiOverbought
    case TrendReversal => s.close < s.smaShort && s.smaShort < s.smaLong && pct > TREND_PROFIT_FLOOR
  }

  /** The exit chosen while holding: the first trigger, in priority order,
      that holds; none when no trigger holds. */
  function ExitTrigger(p: Params, s: Snapshot, buyPrice: real): (r: Option<ExitReason>)
    requires buyPrice != 0.0
    ensures r.None? <==> forall e :: !Triggered(p, s, buyPrice, e)
    ensures r.Some? ==> Triggered(p, s, buyPrice, r.value)
    ensures r.Some? ==> forall e :: Priority(e) < Priority(r.value) ==> !Triggered(p, s, buyPrice, e)
  {
    if Triggered(p, s, buyPrice, TakeProfit) then Some(TakeProfit)
    else if Triggered(p, s, buyPrice, StopLoss) then Some(StopLoss)
    else if Triggered(p, s, buyPrice, RsiOverbought) then Some(RsiOverbought)
    else if Triggered(p, s, buyPrice, TrendReversal) then Some(TrendReversal)
    else None
  }

  /** The exit is determined by its characterisation: any trigger that holds
      and has no holding trigger before it is the one chosen. */
  lemma ExitTriggerUnique(p: Params, s: Snapshot, buyPrice: real, e: ExitReason)
    requires buyPrice != 0.0
    requires Triggered(p, s, buyPrice, e)
    requires forall f :: Priority(f) < Priority(e) ==> !Triggered(p, s, buyPrice, f)
    ensures ExitTrigger(p, s, buyPrice) == Some(e)
  {
    var r := ExitTrigger(p, s, buyPrice);
    assert r.Some?;
  }

  /** A trend-reversal exit happens only below the short SMA, with the short
      SMA below the long one, in profit above the floor, and with no earlier
      trigger holding: in particular the gain is below the take-profit level. */
  lemma TrendExitConditions(p: Params, s: Snapshot, buyPrice: real)
    requires buyPrice != 0.0
    requires ExitTrigger(p, s, buyPrice) == Some(TrendReversal)
    ensures s.close < s.smaShort < s.smaLong
    ensures TREND_PROFIT_FLOOR < ProfitPct(s.close, buyPrice) < p.takeProfitPct
    ensures ProfitPct(s.close, buyPrice) > -p.stopLossPct
    ensures s.rsi <= p.rsiOverbought
  {
    assert Triggered(p, s, buyPrice, TrendReversal);
    assert !Triggered(p, s, buyPrice, TakeProfit);
    assert !Triggered(p, s, buyPrice, StopLoss);
    assert !Triggered(p, s, buyPrice, RsiOverbought);
  }

  /** With a take-profit level above the negated stop-loss level (as with the
      defaults), take-profit and stop-loss never hold together, so their
      relative priority does not matter. */
  lemma ProfitAndLossExclusive(p: Params, s: Snapshot, buyPrice: real)
    requires buyPrice != 0.0
    requires p.takeProfitPct > -p.stopLossPct
    ensures !(Triggered(p, s, buyPrice, TakeProfit) && Triggered(p, s, buyPrice, StopLoss))
  {
  }

  /** Under the declared defaults take-profit and stop-loss never hold
      together, and a trend-reversal exit always takes a gain strictly
      between 2% and 8%. */
  lemma DefaultExits(s: Snapshot, buyPrice: real)
    requires buyPrice != 0.0
    ensures !(Triggered(DEFAULTS, s, buyPrice, TakeProfit) && Triggered(DEFAULTS, s, buyPrice, StopLoss))
    ensures ExitTrigger(DEFAULTS, s, buyPrice) == Some(TrendReversal) ==>
      0.02 < ProfitPct(s.close, buyPrice) < 0.08
  {
    ProfitAndLossExclusive(DEFAULTS, s, buyPrice);
    if ExitTrigger(DEFAULTS, s, buyPrice) == Some(TrendReversal) {
      TrendExitConditions(DEFAULTS, s, buyPrice);
    }
  }
}
