/**
 * The per-day decision functions of the strategy engine (src/trader.py):
 * signal generation, the position status machine, entry prices and
 * mark-to-market. Prices, thresholds and lot sizes are `real`: the source only
 * compares, subtracts and multiplies them.
 */
module Trader {

  import opened Optional

  /** The trading signal derived from the z-score. */
  datatype Signal = Buy | Sell | Hold

  /**
   * The position status. `Buy` and `Sell` are open positions; `Hold` and the
   * three closing events (stop loss, take profit, cointegration break) are flat.
   * The status before the first day is `None`.
   */
  datatype Status = Buy | Sell | Hold | StopLoss | TakeProfit | CointegrationBreak

  /** The numeric column that accompanies each signal label. */
  function SignalValue(s: Signal): int
  {
    match s
    case Buy => 1
    case Sell => -1
    case Hold => 0
  }

  /** The status a flat position takes when it follows `s`. */
  function AsStatus(s: Signal): Status
  {
    match s
    case Buy => Status.Buy
    case Sell => Status.Sell
    case Hold => Status.Hold
  }

  /** The signal pointing the other way. */
  function Opposite(s: Signal): Signal
  {
    match s
    case Buy => Signal.Sell
    case Sell => Signal.Buy
    case Hold => Signal.Hold
  }

  /** A position is open. */
  predicate IsOpen(s: Option<Status>)
  {
    s == Some(Status.Buy) || s == Some(Status.Sell)
  }

  /** One of the three statuses that close a position and realise its value. */
  predicate IsClosing(s: Status)
  {
    s == StopLoss || s == TakeProfit || s == CointegrationBreak
  }

  // ---------------------------------------------------------------- windows

  /** First index of the cointegration test's window `[start, currentIdx)`. */
  function CointegrationWindowStart(currentIdx: int, lookbackPeriod: int): (start: int)
    ensures start >= 0
    ensures 0 <= currentIdx && 0 <= lookbackPeriod ==> start <= currentIdx
    ensures currentIdx >= lookbackPeriod ==> currentIdx - start == lookbackPeriod
    ensures currentIdx < lookbackPeriod ==> start == 0
  {
    if currentIdx - lookbackPeriod > 0 then currentIdx - lookbackPeriod else 0
  }

  /**
   * The z-score from the spread's window statistics: the current spread's
   * distance from the mean in standard deviations, or 0 when the window has no
   * spread variance. The logarithms, mean and deviation themselves are not
   * modelled.
   */
  function ZScore(currentSpread: real, meanSpread: real, stdSpread: real): (z: real)
    ensures stdSpread > 0.0 ==> meanSpread + z * stdSpread == currentSpread
    ensures stdSpread <= 0.0 ==> z == 0.0
  {
    if stdSpread > 0.0 then (currentSpread - meanSpread) / stdSpread else 0.0
  }

  // ---------------------------------------------------------------- signals

  /**
   * The signal for a z-score: none without a z-score or without
   * cointegration, SELL above the threshold, BUY below its negation.
   */
  function GenerateSignal(zscore: Option<real>, threshold: real, isCointegrated: bool): (r: (int, Signal))
    ensures r.0 == SignalValue(r.1)
    ensures zscore.None? || !isCointegrated ==> r.1 == Signal.Hold
    ensures r.1 == Signal.Sell <==> isCointegrated && zscore.Some? && zscore.value > threshold
    ensures r.1 == Signal.Buy <==>
      isCointegrated && zscore.Some? && zscore.value < -threshold && !(zscore.value > threshold)
  {
    if zscore.None? then (0, Signal.Hold)
    else if !isCointegrated then (0, Signal.Hold)
    else if zscore.value > threshold then (-1, Signal.Sell)
    else if zscore.value < -threshold then (1, Signal.Buy)
    else (0, Signal.Hold)
  }

  /** With a non-negative threshold, a z-score of opposite sign gives the opposite signal. */
  lemma SignalIsSymmetric(z: real, threshold: real, isCointegrated: bool)
    requires threshold >= 0.0
    ensures GenerateSignal(Some(-z), threshold, isCointegrated).1
         == Opposite(GenerateSignal(Some(z), threshold, isCointegrated).1)
    ensures GenerateSignal(Some(-z), threshold, isCointegrated).0
         == -GenerateSignal(Some(z), threshold, isCointegrated).0
  {
  }

  /**
   * With a non-negative threshold and cointegrated assets, HOLD is exactly the
   * band `[-threshold, threshold]`.
   */
  lemma HoldIsTheThresholdBand(z: real, threshold: real)
    requires threshold >= 0.0
    ensures GenerateSignal(Some(z), threshold, true).1 == Signal.Hold <==> -threshold <= z <= threshold
  {
  }

  // ---------------------------------------------------------- status machine

  /**
   * The next status. A flat position follows the signal. An open position is
   * closed by a cointegration break first, then by the stop loss, then by the
   * take profit (the last two only when a mark-to-market value is known), and
   * otherwise stays as it was.
   */
  function UpdateStatus(prevStatus: Option<Status>, mtm: Option<real>, stopLoss: real, takeProfit: real,
                        signal: Signal, isCointegrated: bool): (r: Status)
    ensures !IsOpen(prevStatus) ==> r == AsStatus(signal)
    ensures IsOpen(prevStatus) && !isCointegrated ==> r == CointegrationBreak
    ensures IsOpen(prevStatus) && isCointegrated && mtm.Some? && mtm.value < stopLoss ==> r == StopLoss
    ensures IsOpen(prevStatus) && isCointegrated && mtm.Some? && stopLoss <= mtm.value && mtm.value > takeProfit
      ==> r == TakeProfit
    ensures IsOpen(prevStatus) && isCointegrated && (mtm.None? || stopLoss <= mtm.value <= takeProfit)
      ==> Some(r) == prevStatus
    ensures IsOpen(prevStatus) ==> Some(r) == prevStatus || IsClosing(r)
  {
    if prevStatus.None? || prevStatus.value in {Status.Hold, StopLoss, TakeProfit, CointegrationBreak} then
      AsStatus(signal)
    else
      assert prevStatus.value == Status.Buy || prevStatus.value == Status.Sell;
      if !isCointegrated then
        CointegrationBreak
      else if mtm.Some? && mtm.value < stopLoss then
        StopLoss
      else if mtm.Some? && mtm.value > takeProfit then
        TakeProfit
      else
        prevStatus.value
  }

  /**
   * A position is opened only from a flat status and only in the direction of
   * the signal; an open BUY never turns into SELL, nor SELL into BUY.
   */
  lemma OpeningOnlyFromFlat(prevStatus: Option<Status>, mtm: Option<real>, stopLoss: real, takeProfit: real,
                            signal: Signal, isCointegrated: bool)
    ensures var r := UpdateStatus(prevStatus, mtm, stopLoss, takeProfit, signal, isCointegrated);
      IsOpen(Some(r)) && Some(r) != prevStatus ==> !IsOpen(prevStatus) && r == AsStatus(signal)
    ensures prevStatus == Some(Status.Buy) ==>
      UpdateStatus(prevStatus, mtm, stopLoss, takeProfit, signal, isCointegrated) != Status.Sell
    ensures prevStatus == Some(Status.Sell) ==>
      UpdateStatus(prevStatus, mtm, stopLoss, takeProfit, signal, isCointegrated) != Status.Buy
  {
  }

  /**
   * A cointegration break closes an open position whatever its mark-to-market
   * value: the second clause of `UpdateStatus`'s contract with the verdict set
   * to false, stated as a corollary on its own.
   */
  lemma BreakTakesPriority(prevStatus: Option<Status>, mtm: Option<real>, stopLoss: real, takeProfit: real,
                           signal: Signal)
    requires IsOpen(prevStatus)
    ensures UpdateStatus(prevStatus, mtm, stopLoss, takeProfit, signal, false) == CointegrationBreak
  {
  }

  // ----------------------------------------------------------- entry prices

  /** The new status opens a position: it is BUY or SELL and differs from the previous status. */
  predicate Opens(prevStatus: Option<Status>, status: Status)
  {
    Some(status) != prevStatus && (status == Status.Buy || status == Status.Sell)
  }

  /**
   * The buy-leg entry price: kept while the status is unchanged, cleared on a
   * flat status, and otherwise asset 1's price on a BUY signal (long asset 1)
   * or asset 2's price on a SELL signal (long asset 2).
   */
  function CalculateBuyPrice(prevStatus: Option<Status>, prevBuyPrice: Option<real>, signal: Signal, status: Status,
                             price1: seq<real>, price2: seq<real>, currentIdx: int): (r: Option<real>)
    requires Opens(prevStatus, status) && signal == Signal.Buy ==> 0 <= currentIdx < |price1|
    requires Opens(prevStatus, status) && signal == Signal.Sell ==> 0 <= currentIdx < |price2|
    ensures Some(status) == prevStatus ==> r == prevBuyPrice
    ensures Some(status) != prevStatus && !IsOpen(Some(status)) ==> r == None
    ensures Opens(prevStatus, status) ==> (r.Some? <==> signal != Signal.Hold)
    ensures Opens(prevStatus, status) && signal == Signal.Buy ==> r == Some(price1[currentIdx])
    ensures Opens(prevStatus, status) && signal == Signal.Sell ==> r == Some(price2[currentIdx])
  {
    if Some(status) == prevStatus then prevBuyPrice
    else if status in {StopLoss, TakeProfit, CointegrationBreak, Status.Hold} then None
    else if signal == Signal.Buy then Some(price1[currentIdx])
    else if signal == Signal.Sell then Some(price2[currentIdx])
    else None
  }

  /**
   * The sell-leg entry price: kept while the status is unchanged, cleared on a
   * flat status, and otherwise asset 2's price on a BUY signal (short asset 2)
   * or asset 1's price on a SELL signal (short asset 1).
   */
  function CalculateSellPrice(prevStatus: Option<Status>, prevSellPrice: Option<real>, signal: Signal, status: Status,
                              price1: seq<real>, price2: seq<real>, currentIdx: int): (r: Option<real>)
    requires Opens(prevStatus, status) && signal == Signal.Buy ==> 0 <= currentIdx < |price2|
    requires Opens(prevStatus, status) && signal == Signal.Sell ==> 0 <= currentIdx < |price1|
    ensures Some(status) == prevStatus ==> r == prevSellPrice
    ensures Some(status) != prevStatus && !IsOpen(Some(status)) ==> r == None
    ensures Opens(prevStatus, status) ==> (r.Some? <==> signal != Signal.Hold)
    ensures Opens(prevStatus, status) && signal == Signal.Buy ==> r == Some(price2[currentIdx])
    ensures Opens(prevStatus, status) && signal == Signal.Sell ==> r == Some(price1[currentIdx])
  {
    if Some(status) == prevStatus then prevSellPrice
    else if status in {StopLoss, TakeProfit, CointegrationBreak, Status.Hold} then None
    else if signal == Signal.Buy then Some(price2[currentIdx])
    else if signal == Signal.Sell then Some(price1[currentIdx])
    else None
  }

  /**
   * A BUY entry and a SELL entry on the same day take the same two prices with
   * the legs swapped.
   */
  lemma EntryLegsSwap(prevStatus: Option<Status>, status: Status, price1: seq<real>, price2: seq<real>, i: int)
    requires 0 <= i < |price1| && 0 <= i < |price2|
    requires Opens(prevStatus, status)
    ensures CalculateBuyPrice(prevStatus, None, Signal.Buy, status, price1, price2, i)
         == CalculateSellPrice(prevStatus, None, Signal.Sell, status, price1, price2, i)
    ensures CalculateSellPrice(prevStatus, None, Signal.Buy, status, price1, price2, i)
         == CalculateBuyPrice(prevStatus, None, Signal.Sell, status, price1, price2, i)
  {
  }

  // --------------------------------------------------------- mark-to-market

  /**
   * The unrealised value of the previous day's open position at today's prices,
   * or `None` when the index is outside either series, an entry price is
   * missing, or no position is open.
   */
  function CalculateMtm(price1: seq<real>, price2: seq<real>, prevStatus: Option<Status>,
                        prevSellPrice: Option<real>, prevBuyPrice: Option<real>,
                        lotSize1: real, lotSize2: real, currentIdx: int): (r: Option<real>)
    ensures r.Some? <==>
      0 <= currentIdx < |price1| && currentIdx < |price2|
      && prevSellPrice.Some? && prevBuyPrice.Some? && IsOpen(prevStatus)
  {
    if currentIdx < 0 || currentIdx >= |price1| || currentIdx >= |price2| then None
    else if prevSellPrice.None? || prevBuyPrice.None? then None
    else if prevStatus == Some(Status.Buy) then
      Some((prevSellPrice.value - price2[currentIdx]) * lotSize2
           + (price1[currentIdx] - prevBuyPrice.value) * lotSize1)
    else if prevStatus == Some(Status.Sell) then
      Some((prevSellPrice.value - price1[currentIdx]) * lotSize1
           + (price2[currentIdx] - prevBuyPrice.value) * lotSize2)
    else None
  }

  /**
   * Marked against the prices of its entry day `e`, a BUY position is long
   * asset 1 and short asset 2, a SELL position the reverse: the two values are
   * each other's negation, and both are zero on the entry day itself.
   */
  lemma MtmOfEntries(price1: seq<real>, price2: seq<real>, lotSize1: real, lotSize2: real, e: nat, i: nat)
    requires e < |price1| && e < |price2| && i < |price1| && i < |price2|
    ensures CalculateMtm(price1, price2, Some(Status.Buy), Some(price2[e]), Some(price1[e]), lotSize1, lotSize2, i)
         == Some((price1[i] - price1[e]) * lotSize1 - (price2[i] - price2[e]) * lotSize2)
    ensures CalculateMtm(price1, price2, Some(Status.Sell), Some(price1[e]), Some(price2[e]), lotSize1, lotSize2, i)
         == Some((price2[i] - price2[e]) * lotSize2 - (price1[i] - price1[e]) * lotSize1)
    ensures CalculateMtm(price1, price2, Some(Status.Buy), Some(price2[e]), Some(price1[e]), lotSize1, lotSize2, e)
         == Some(0.0)
  {
    var m := CalculateMtm(price1, price2, Some(Status.Buy), Some(price2[e]), Some(price1[e]), lotSize1, lotSize2, i);
    assert m.Some?;
    assert m.value == (price2[e] - price2[i]) * lotSize2 + (price1[i] - price1[e]) * lotSize1;
    assert (price2[e] - price2[i]) * lotSize2 == -((price2[i] - price2[e]) * lotSize2);
    assert (price1[e] - price1[i]) * lotSize1 == -((price1[i] - price1[e]) * lotSize1);
    assert (price2[e] - price2[e]) * lotSize2 == 0.0 * lotSize2 == 0.0;
    assert (price1[e] - price1[e]) * lotSize1 == 0.0 * lotSize1 == 0.0;
  }

}
