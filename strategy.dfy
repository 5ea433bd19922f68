/**
 * The daily simulation loop of `run_strategy` (src/trader.py). The loop walks
 * the days `[initialEnd, |price1|)` in ascending order, threads the previous
 * status, entry prices and cumulative PnL from one day to the next, and
 * appends one row per day.
 *
 * The cointegration test and the z-score are statistics over windows of the
 * two series; they enter the model as functions of their window bounds, so
 * that the windows the loop asks for are visible while the regression, the
 * Dickey-Fuller test, the logarithms and the standard deviation are not.
 */
module Strategy {

  import opened Optional
  import opened UserInputs
  import opened Trader

  /**
   * The two aligned closing-price series and the window statistics over them:
   * `zscoreOf(start, end)` is the z-score of day `end` against the spread
   * window `[start, end)`, `cointegratedOf(start, end)` the verdict of the
   * cointegration test over the window `[start, end)`.
   */
  datatype MarketData = MarketData(
    price1: seq<real>,
    price2: seq<real>,
    zscoreOf: (int, int) -> real,
    cointegratedOf: (int, int) -> bool)

  /**
   * One row of the results table. `index` is the row label `current_idx`;
   * the Date column is the series' date at that position.
   */
  datatype DayRecord = DayRecord(
    index: nat,
    asset1Price: real,
    asset2Price: real,
    zscore: real,
    signalValue: int,
    signal: Signal,
    status: Status,
    buyPrice: Option<real>,
    sellPrice: Option<real>,
    mtm: Option<real>,
    pnl: real,
    isCointegrated: bool)

  /** What the loop carries from one day to the next. */
  datatype Position = Position(status: Option<Status>, buyPrice: Option<real>, sellPrice: Option<real>, pnl: real)

  /** The carried state before the first day: no status, no entry prices, no PnL. */
  const Start := Position(None, None, None, 0.0)

  /** The state a row hands on to the next day. */
  function Carried(row: DayRecord): Position
  {
    Position(Some(row.status), row.buyPrice, row.sellPrice, row.pnl)
  }

  /** Entry prices are present exactly while a position is open. */
  predicate EntryPricesMatchStatus(pos: Position)
  {
    (pos.buyPrice.Some? <==> IsOpen(pos.status)) && (pos.sellPrice.Some? <==> IsOpen(pos.status))
  }

  /** The value a row realises: its mark-to-market on a closing status, nothing otherwise. */
  function Realised(row: DayRecord): real
  {
    if IsClosing(row.status) && row.mtm.Some? then row.mtm.value else 0.0
  }

  /** The sum of what a sequence of rows realises. */
  function TotalRealised(rows: seq<DayRecord>): real
  {
    if rows == [] then 0.0 else TotalRealised(rows[..|rows| - 1]) + Realised(rows[|rows| - 1])
  }

  /** Both series hold at least `lookbackPeriod` rows (src/data.py:51-53). */
  predicate LookbackCovered(m: MarketData, lookbackPeriod: int)
  {
    |m.price1| >= lookbackPeriod && |m.price2| >= lookbackPeriod
  }

  /**
   * The row the loop body produces for day `i` from the carried position: the
   * z-score window is the `WindowSize(p)` days before `i`, the cointegration
   * window reaches back `lookbackPeriod` days (clamped at 0), the mark-to-market
   * uses the previous day's status and entry prices, and PnL grows only by a
   * closing day's mark-to-market.
   */
  function Day(p: Params, m: MarketData, i: nat, pos: Position): (row: DayRecord)
    requires i < |m.price1| && i < |m.price2|
    ensures row.index == i && row.asset1Price == m.price1[i] && row.asset2Price == m.price2[i]
    ensures row.signalValue == SignalValue(row.signal)
    ensures !row.isCointegrated ==> row.signal == Signal.Hold
    ensures row.mtm.Some? ==> IsOpen(pos.status)
    ensures IsOpen(pos.status) ==> Some(row.status) == pos.status || IsClosing(row.status)
    ensures row.pnl == pos.pnl + Realised(row)
  {
    var isCointegrated := m.cointegratedOf(CointegrationWindowStart(i, p.lookbackPeriod), i);
    var zscore := m.zscoreOf(i - WindowSize(p), i);
    var (signalValue, signal) := GenerateSignal(Some(zscore), p.threshold, isCointegrated);
    var mtm := CalculateMtm(m.price1, m.price2, pos.status, pos.sellPrice, pos.buyPrice, p.lotSize1, p.lotSize2, i);
    var status := UpdateStatus(pos.status, mtm, p.stopLoss, p.takeProfit, signal, isCointegrated);
    var buyPrice := CalculateBuyPrice(pos.status, pos.buyPrice, signal, status, m.price1, m.price2, i);
    var sellPrice := CalculateSellPrice(pos.status, pos.sellPrice, signal, status, m.price1, m.price2, i);
    var pnl := if IsClosing(status) && mtm.Some? then pos.pnl + mtm.value else pos.pnl;
    DayRecord(i, m.price1[i], m.price2[i], zscore, signalValue, signal, status,
              buyPrice, sellPrice, mtm, pnl, isCointegrated)
  }

  /** The position in force before row `k` of a run that started from `pos`. */
  function Before(pos: Position, rows: seq<DayRecord>, k: nat): Position
    requires k <= |rows|
  {
    if k == 0 then pos else Carried(rows[k - 1])
  }

  /**
   * `rows` is what the loop produces from day `first` on, starting from `pos`:
   * row `k` is day `first + k` computed on the state the previous row left.
   */
  predicate IsRun(p: Params, m: MarketData, first: nat, pos: Position, rows: seq<DayRecord>)
  {
    && first + |rows| <= |m.price1|
    && first + |rows| <= |m.price2|
    && forall k {:trigger Before(pos, rows, k)} ::
         0 <= k < |rows| ==> rows[k] == Day(p, m, first + k, Before(pos, rows, k))
  }

  /** A run extended by the next day is a run. */
  lemma RunExtends(p: Params, m: MarketData, first: nat, pos: Position, rows: seq<DayRecord>, row: DayRecord)
    requires IsRun(p, m, first, pos, rows)
    requires first + |rows| < |m.price1| && first + |rows| < |m.price2|
    requires row == Day(p, m, first + |rows|, Before(pos, rows, |rows|))
    ensures IsRun(p, m, first, pos, rows + [row])
  {
    var rows' := rows + [row];
    forall k | 0 <= k < |rows'|
      ensures rows'[k] == Day(p, m, first + k, Before(pos, rows', k))
    {
      if k < |rows| {
        assert rows'[k] == rows[k];
        assert Before(pos, rows', k) == Before(pos, rows, k);
      }
    }
  }

  /**
   * The strategy run: `None` when the parameters fail validation or the
   * history is shorter than the lookback period, otherwise one row per day
   * `initialEnd, initialEnd + 1, ..., |price1| - 1`, each computed by the loop
   * body on the state the previous day left.
   */
  method RunStrategy(p: Params, m: MarketData) returns (result: Option<seq<DayRecord>>)
    requires |m.price1| == |m.price2|
    requires p.initialStart >= 0
    ensures result.None? <==> !ValidateParams(p).0 || !LookbackCovered(m, p.lookbackPeriod)
    ensures result.Some? ==> p.initialEnd >= 0
    ensures result.Some? ==>
      |result.value| == (if p.initialEnd < |m.price1| then |m.price1| - p.initialEnd else 0)
    ensures result.Some? ==> IsRun(p, m, p.initialEnd, Start, result.value)
    ensures result.Some? ==>
      forall k :: 0 <= k < |result.value| ==> EntryPricesMatchStatus(Carried(result.value[k]))
    ensures result.Some? && result.value != [] ==>
      result.value[|result.value| - 1].pnl == TotalRealised(result.value)
  {
    var (isValid, _) := ValidateParams(p);
    if !isValid {
      return None;
    }
    if !LookbackCovered(m, p.lookbackPeriod) {
      return None;
    }
    assert Holds(p, EndAfterStart);

    var prevStatus: Option<Status> := None;
    var prevBuyPrice: Option<real> := None;
    var prevSellPrice: Option<real> := None;
    var pnl := 0.0;
    var results: seq<DayRecord> := [];
    var startIdx := p.initialStart;
    var currentIdx: nat := p.initialEnd;
    while currentIdx < |m.price1|
      invariant p.initialEnd <= currentIdx
      invariant currentIdx <= |m.price1| || currentIdx == p.initialEnd
      invariant |results| == currentIdx - p.initialEnd
      invariant startIdx == currentIdx - WindowSize(p)
      invariant IsRun(p, m, p.initialEnd, Start, results)
      invariant Position(prevStatus, prevBuyPrice, prevSellPrice, pnl) == Before(Start, results, |results|)
      decreases |m.price1| - currentIdx
    {
      var isCointegrated := m.cointegratedOf(CointegrationWindowStart(currentIdx, p.lookbackPeriod), currentIdx);
      var zscore := m.zscoreOf(startIdx, currentIdx);
      var (signalValue, signal) := GenerateSignal(Some(zscore), p.threshold, isCointegrated);
      var mtm := CalculateMtm(m.price1, m.price2, prevStatus, prevSellPrice, prevBuyPrice,
                              p.lotSize1, p.lotSize2, currentIdx);
      var status := UpdateStatus(prevStatus, mtm, p.stopLoss, p.takeProfit, signal, isCointegrated);
      var buyPrice := CalculateBuyPrice(prevStatus, prevBuyPrice, signal, status, m.price1, m.price2, currentIdx);
      var sellPrice := CalculateSellPrice(prevStatus, prevSellPrice, signal, status, m.price1, m.price2, currentIdx);
      if IsClosing(status) && mtm.Some? {
        pnl := pnl + mtm.value;
      }
      var row := DayRecord(currentIdx, m.price1[currentIdx], m.price2[currentIdx], zscore, signalValue, signal,
                           status, buyPrice, sellPrice, mtm, pnl, isCointegrated);
      RunExtends(p, m, p.initialEnd, Start, results, row);
      results := results + [row];
      prevStatus, prevBuyPrice, prevSellPrice := Some(status), buyPrice, sellPrice;
      startIdx := startIdx + 1;
      currentIdx := currentIdx + 1;
    }
    StrategyRunProperties(p, m, results);
    return Some(results);
  }


  // ------------------------------------------------------------ one day

  /** A day keeps entry prices present exactly while a position is open. */
  lemma DayKeepsEntryPrices(p: Params, m: MarketData, i: nat, pos: Position)
    requires i < |m.price1| && i < |m.price2|
    requires EntryPricesMatchStatus(pos)
    ensures EntryPricesMatchStatus(Carried(Day(p, m, i, pos)))
  {
  }

  /**
   * On a day that starts with consistent entry prices, a mark-to-market value
   * exists exactly when a position is open, and the day's PnL is the carried
   * PnL plus what the day realises.
   */
  lemma DayMarksOpenPositions(p: Params, m: MarketData, i: nat, pos: Position)
    requires i < |m.price1| && i < |m.price2|
    requires EntryPricesMatchStatus(pos)
    ensures Day(p, m, i, pos).mtm.Some? <==> IsOpen(pos.status)
    ensures Day(p, m, i, pos).pnl == pos.pnl + Realised(Day(p, m, i, pos))
    ensures IsClosing(Day(p, m, i, pos).status) ==> IsOpen(pos.status) && Day(p, m, i, pos).mtm.Some?
  {
  }

  // --------------------------------------------------------------- runs

  /** The row a run holds at position `k`. */
  lemma RowAt(p: Params, m: MarketData, first: nat, pos: Position, rows: seq<DayRecord>, k: nat)
    requires IsRun(p, m, first, pos, rows)
    requires k < |rows|
    ensures first + k < |m.price1| && first + k < |m.price2|
    ensures rows[k] == Day(p, m, first + k, Before(pos, rows, k))
  {
  }

  /** Along a run from a consistent start, entry prices are present exactly while a position is open. */
  lemma {:induction false} EntryPricesMatchAt(p: Params, m: MarketData, first: nat, pos: Position,
                                              rows: seq<DayRecord>, k: nat)
    requires IsRun(p, m, first, pos, rows)
    requires EntryPricesMatchStatus(pos)
    requires k <= |rows|
    ensures EntryPricesMatchStatus(Before(pos, rows, k))
  {
    if k > 0 {
      EntryPricesMatchAt(p, m, first, pos, rows, k - 1);
      RowAt(p, m, first, pos, rows, k - 1);
      DayKeepsEntryPrices(p, m, first + k - 1, Before(pos, rows, k - 1));
    }
  }

  /**
   * Along a run from the start state, after each day buy and sell prices are
   * both present exactly when the carried status is BUY or SELL; a day has a
   * mark-to-market value exactly when it starts with an open position; and
   * every closing day (stop loss, take profit, cointegration break) has one,
   * so every close is realised.
   */
  lemma RunKeepsEntryPrices(p: Params, m: MarketData, first: nat, pos: Position, rows: seq<DayRecord>)
    requires IsRun(p, m, first, pos, rows)
    requires EntryPricesMatchStatus(pos)
    ensures forall k :: 0 <= k < |rows| ==> EntryPricesMatchStatus(Carried(rows[k]))
    ensures forall k :: 0 <= k < |rows| ==> (rows[k].mtm.Some? <==> IsOpen(Before(pos, rows, k).status))
    ensures forall k :: 0 <= k < |rows| && IsClosing(rows[k].status) ==> rows[k].mtm.Some?
  {
    forall k | 0 <= k < |rows|
      ensures EntryPricesMatchStatus(Carried(rows[k]))
      ensures rows[k].mtm.Some? <==> IsOpen(Before(pos, rows, k).status)
      ensures IsClosing(rows[k].status) ==> rows[k].mtm.Some?
    {
      EntryPricesMatchAt(p, m, first, pos, rows, k);
      EntryPricesMatchAt(p, m, first, pos, rows, k + 1);
      RowAt(p, m, first, pos, rows, k);
      DayMarksOpenPositions(p, m, first + k, Before(pos, rows, k));
    }
  }

  /**
   * PnL accounting: each row's PnL is the previous PnL plus what the row
   * realises (so it changes only on a closing row with a mark-to-market value,
   * and by exactly that value), and each row's PnL column is the starting PnL
   * plus the running sum of what the rows so far realise.
   */
  lemma {:induction false} RunPnlIsRunningSum(p: Params, m: MarketData, first: nat, pos: Position,
                                              rows: seq<DayRecord>, k: nat)
    requires IsRun(p, m, first, pos, rows)
    requires k < |rows|
    ensures rows[k].pnl == Before(pos, rows, k).pnl + Realised(rows[k])
    ensures rows[k].pnl != Before(pos, rows, k).pnl ==>
      IsClosing(rows[k].status) && rows[k].mtm.Some? && rows[k].pnl == Before(pos, rows, k).pnl + rows[k].mtm.value
    ensures rows[k].pnl == pos.pnl + TotalRealised(rows[..k + 1])
  {
    RowAt(p, m, first, pos, rows, k);
    assert rows[..k + 1][..k] == rows[..k];
    if k > 0 {
      RunPnlIsRunningSum(p, m, first, pos, rows, k - 1);
    }
  }

  /** The PnL a run ends with is its starting PnL plus everything its rows realise. */
  lemma RunFinalPnl(p: Params, m: MarketData, first: nat, pos: Position, rows: seq<DayRecord>)
    requires IsRun(p, m, first, pos, rows)
    requires rows != []
    ensures rows[|rows| - 1].pnl == pos.pnl + TotalRealised(rows)
  {
    RunPnlIsRunningSum(p, m, first, pos, rows, |rows| - 1);
    assert rows[..|rows|] == rows;
  }

  /**
   * Status transitions along a run: while the status stays the same the entry
   * prices are carried unchanged; an open BUY never turns directly into SELL
   * nor SELL into BUY; a row that opens a position follows its signal and takes
   * that day's prices, (asset 1, asset 2) as (buy, sell) for BUY and the
   * reverse for SELL.
   */
  lemma RunTransitions(p: Params, m: MarketData, first: nat, pos: Position, rows: seq<DayRecord>, k: nat)
    requires IsRun(p, m, first, pos, rows)
    requires k < |rows|
    ensures Some(rows[k].status) == Before(pos, rows, k).status ==>
      rows[k].buyPrice == Before(pos, rows, k).buyPrice && rows[k].sellPrice == Before(pos, rows, k).sellPrice
    ensures Before(pos, rows, k).status == Some(Status.Buy) ==> rows[k].status != Status.Sell
    ensures Before(pos, rows, k).status == Some(Status.Sell) ==> rows[k].status != Status.Buy
    ensures Opens(Before(pos, rows, k).status, rows[k].status) ==>
      !IsOpen(Before(pos, rows, k).status) && rows[k].status == AsStatus(rows[k].signal)
    ensures Opens(Before(pos, rows, k).status, rows[k].status) && rows[k].status == Status.Buy ==>
      rows[k].buyPrice == Some(m.price1[first + k]) && rows[k].sellPrice == Some(m.price2[first + k])
    ensures Opens(Before(pos, rows, k).status, rows[k].status) && rows[k].status == Status.Sell ==>
      rows[k].buyPrice == Some(m.price2[first + k]) && rows[k].sellPrice == Some(m.price1[first + k])
  {
  }

  /**
   * Shape of a run: row `k` is day `first + k`, carries that day's prices, the
   * z-score over the window of `WindowSize(p)` days just before it, the
   * cointegration verdict over the window reaching back `lookbackPeriod` days
   * (clamped at 0), and the signal those two give.
   */
  lemma RunShape(p: Params, m: MarketData, first: nat, pos: Position, rows: seq<DayRecord>, k: nat)
    requires IsRun(p, m, first, pos, rows)
    requires k < |rows|
    ensures rows[k].index == first + k
    ensures rows[k].asset1Price == m.price1[first + k] && rows[k].asset2Price == m.price2[first + k]
    ensures rows[k].zscore == m.zscoreOf(first + k - WindowSize(p), first + k)
    ensures rows[k].isCointegrated
         == m.cointegratedOf(CointegrationWindowStart(first + k, p.lookbackPeriod), first + k)
    ensures (rows[k].signalValue, rows[k].signal)
         == GenerateSignal(Some(rows[k].zscore), p.threshold, rows[k].isCointegrated)
  {
    RowAt(p, m, first, pos, rows, k);
  }

  /** Runs are deterministic: two runs of the same length from the same start are equal. */
  lemma {:induction false} RunIsDeterministic(p: Params, m: MarketData, first: nat, pos: Position,
                                              rows1: seq<DayRecord>, rows2: seq<DayRecord>, k: nat)
    requires IsRun(p, m, first, pos, rows1) && IsRun(p, m, first, pos, rows2)
    requires |rows1| == |rows2|
    requires k <= |rows1|
    ensures rows1[..k] == rows2[..k]
  {
    if k > 0 {
      RunIsDeterministic(p, m, first, pos, rows1, rows2, k - 1);
      if k > 1 {
        assert rows1[k - 2] == rows1[..k - 1][k - 2] == rows2[..k - 1][k - 2] == rows2[k - 2];
      }
      RowAt(p, m, first, pos, rows1, k - 1);
      RowAt(p, m, first, pos, rows2, k - 1);
      assert rows1[..k] == rows1[..k - 1] + [rows1[k - 1]];
      assert rows2[..k] == rows2[..k - 1] + [rows2[k - 1]];
    }
  }

  // ----------------------------------------------------------- whole runs

  /**
   * What a successful `RunStrategy` result promises: row `k` is day
   * `initialEnd + k`, its z-score window is `[initialStart + k, initialEnd + k)`
   * (constant width), entry prices are present exactly while a position is
   * open, every closing row is realised, and the last row's PnL is the sum of
   * the mark-to-market values of the closing rows.
   */
  lemma StrategyRunProperties(p: Params, m: MarketData, rows: seq<DayRecord>)
    requires p.initialEnd >= 0
    requires IsRun(p, m, p.initialEnd, Start, rows)
    ensures forall k :: 0 <= k < |rows| ==> rows[k].index == p.initialEnd + k
    ensures forall k :: 0 <= k < |rows| ==>
      rows[k].zscore == m.zscoreOf(p.initialStart + k, p.initialEnd + k)
    ensures forall k :: 0 <= k < |rows| ==> EntryPricesMatchStatus(Carried(rows[k]))
    ensures forall k :: 0 <= k < |rows| && IsClosing(rows[k].status) ==> rows[k].mtm.Some?
    ensures rows != [] ==> rows[|rows| - 1].pnl == TotalRealised(rows)
  {
    forall k | 0 <= k < |rows|
      ensures rows[k].index == p.initialEnd + k
      ensures rows[k].zscore == m.zscoreOf(p.initialStart + k, p.initialEnd + k)
    {
      RunShape(p, m, p.initialEnd, Start, rows, k);
    }
    RunKeepsEntryPrices(p, m, p.initialEnd, Start, rows);
    if rows != [] {
      RunFinalPnl(p, m, p.initialEnd, Start, rows);
    }
  }

}
