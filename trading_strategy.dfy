/** Trade mechanics shared by every strategy: long and short fills that update
    the ledger and append a signal and a trade record, end-of-day liquidation
    and dynamic resizing of the trade size.  A run of a strategy is described
    by a Session value (ledger, trade log, signal list) and a per-tick Action. */
module TradingStrategy {
  import opened Data
  import opened Analysis

  /** What a simulation has produced so far: the ledger, the trade log and the
      signal list. */
  datatype Session = Session(ledger: Ledger, tradeLog: seq<TradeRecord>, tradeSignals: seq<TradeSignal>)

  /** What a strategy does at one tick; at most one trade follows from it. */
  datatype Action = Hold | EnterLong | EnterShort | Liquidate

  /** The record of a trade at tick c, taken after the ledger was updated:
      the position value is the new position marked at this tick's close. */
  function TradeRecordAt(stockData: seq<Tick>, strategyName: string, c: nat, positionType: Direction,
                         shares: int, after: Ledger, info: Annotation): TradeRecord
    requires c < |stockData|
  {
    var price := stockData[c].close;
    TradeRecord(c, strategyName, positionType, shares, price, shares as real * price,
                after.position as real * price, info)
  }

  /** A buy of `shares` at tick c, with its signal and record. */
  function LongTrade(s: Session, stockData: seq<Tick>, strategyName: string, c: nat, shares: int, info: Annotation): Session
    requires c < |stockData|
  {
    var l := LongFill(s.ledger, shares, stockData[c].close);
    Session(l,
            s.tradeLog + [TradeRecordAt(stockData, strategyName, c, Long, shares, l, info)],
            s.tradeSignals + [TradeSignal(c, Long)])
  }

  /** A sale of `shares` at tick c, with its signal and record. */
  function ShortTrade(s: Session, stockData: seq<Tick>, strategyName: string, c: nat, shares: int, info: Annotation): Session
    requires c < |stockData|
  {
    var l := ShortFill(s.ledger, shares, stockData[c].close);
    Session(l,
            s.tradeLog + [TradeRecordAt(stockData, strategyName, c, Short, shares, l, info)],
            s.tradeSignals + [TradeSignal(c, Short)])
  }

  /** End-of-day liquidation: sell a long position, buy back a short one
      (|position| shares), do nothing when flat. */
  function Liquidation(s: Session, stockData: seq<Tick>, strategyName: string, c: nat, info: Annotation): Session
    requires c < |stockData|
  {
    if s.ledger.position > 0 then ShortTrade(s, stockData, strategyName, c, s.ledger.position, info)
    else if s.ledger.position < 0 then LongTrade(s, stockData, strategyName, c, -s.ledger.position, info)
    else s
  }

  /** Liquidation as the Python code writes it: a short position is "closed"
      by a long of the (negative) position itself. */
  function LiquidationAsWritten(s: Session, stockData: seq<Tick>, strategyName: string, c: nat, info: Annotation): Session
    requires c < |stockData|
  {
    if s.ledger.position > 0 then ShortTrade(s, stockData, strategyName, c, s.ledger.position, info)
    else if s.ledger.position < 0 then LongTrade(s, stockData, strategyName, c, s.ledger.position, info)
    else s
  }

  /** The effect of one tick's action. */
  function Apply(s: Session, stockData: seq<Tick>, strategyName: string, baseLongPosition: int,
                 baseShortPosition: int, c: nat, action: Action, info: Annotation): Session
    requires c < |stockData|
  {
    match action
    case Hold => s
    case EnterLong => LongTrade(s, stockData, strategyName, c, baseLongPosition, info)
    case EnterShort => ShortTrade(s, stockData, strategyName, c, baseShortPosition, info)
    case Liquidate => Liquidation(s, stockData, strategyName, c, info)
  }

  /** Truncation of a real toward zero, as Python's int() does. */
  function TruncateToInt(x: real): (r: int)
    ensures 0.0 <= x ==> 0 <= r && r as real <= x < r as real + 1.0
    ensures x < 0.0 ==> r <= 0 && r as real - 1.0 < x <= r as real
  {
    if x >= 0.0 then x.Floor else -((-x).Floor)
  }

  /** Shares that `fraction` of the equity buys at `sharePrice`, before
      truncation. */
  function SizingShares(fraction: real, l: Ledger, sharePrice: real): real
    requires sharePrice != 0.0
  {
    fraction * Equity(l) / sharePrice
  }

  // ---------------------------------------------------------------------------
  // Properties of the trade mechanics

  /** Liquidation leaves the position flat with exactly one closing trade of
      |position| shares on the opposite side, or changes nothing when the
      position is already flat. */
  lemma LiquidationFlattens(s: Session, stockData: seq<Tick>, strategyName: string, c: nat, info: Annotation)
    requires c < |stockData|
    ensures Liquidation(s, stockData, strategyName, c, info).ledger.position == 0
    ensures s.ledger.position == 0 ==> Liquidation(s, stockData, strategyName, c, info) == s
    ensures s.ledger.position != 0 ==>
              var r := Liquidation(s, stockData, strategyName, c, info);
              && |r.tradeLog| == |s.tradeLog| + 1
              && r.tradeLog[|s.tradeLog|].positionType == (if s.ledger.position > 0 then Short else Long)
              && r.tradeLog[|s.tradeLog|].positionSizeInShares == (if s.ledger.position > 0 then s.ledger.position else -s.ledger.position)
  {
  }

  /** The Python code's liquidation of a short position doubles it instead of
      closing it. */
  lemma LiquidationAsWrittenDoublesShort(s: Session, stockData: seq<Tick>, strategyName: string, c: nat, info: Annotation)
    requires c < |stockData| && s.ledger.position < 0
    ensures LiquidationAsWritten(s, stockData, strategyName, c, info).ledger.position == 2 * s.ledger.position
    ensures LiquidationAsWritten(s, stockData, strategyName, c, info).ledger.position != 0
  {
  }

  /** What a run has kept true since it started from s0 and processed ticks
      0 .. n-1: it only appended to the trade log and the signal list, one
      signal per record and matching it, the new records are at ticks below n
      in strictly increasing order (so at most one trade per tick), cash plus
      position value is unchanged, and each new record cost one commission. */
  ghost predicate Consistent(s0: Session, s: Session, n: nat) {
    var logged := |s0.tradeLog|;
    var signalled := |s0.tradeSignals|;
    && logged <= |s.tradeLog|
    && |s.tradeSignals| - signalled == |s.tradeLog| - logged
    && s.tradeLog[..logged] == s0.tradeLog
    && s.tradeSignals[..signalled] == s0.tradeSignals
    && (forall i :: logged <= i < |s.tradeLog| ==>
          s.tradeLog[i].candleStickCount < n && s.tradeSignals[signalled + (i - logged)] == SignalOf(s.tradeLog[i]))
    && (forall i, j :: logged <= i < j < |s.tradeLog| ==>
          s.tradeLog[i].candleStickCount < s.tradeLog[j].candleStickCount)
    && Equity(s.ledger) == Equity(s0.ledger)
    && s.ledger.commissionTotal == s0.ledger.commissionTotal + (|s.tradeLog| - logged) as real * commission
    && s.ledger.cashUsed == s0.ledger.cashUsed
    && s.ledger.PL == s0.ledger.PL
  }

  /** A session is consistent with itself before any tick. */
  lemma ConsistentStart(s0: Session)
    ensures Consistent(s0, s0, 0)
  {
  }

  /** Appending one trade at tick c, with its signal, a ledger of the same
      equity and one more commission, keeps a run consistent up to c + 1. */
  lemma ConsistentAppend(s0: Session, s: Session, l: Ledger, t: TradeRecord, c: nat)
    requires Consistent(s0, s, c) && t.candleStickCount == c
    requires Equity(l) == Equity(s.ledger) && l.commissionTotal == s.ledger.commissionTotal + commission
    requires l.cashUsed == s.ledger.cashUsed && l.PL == s.ledger.PL
    ensures Consistent(s0, Session(l, s.tradeLog + [t], s.tradeSignals + [SignalOf(t)]), c + 1)
  {
    var r := Session(l, s.tradeLog + [t], s.tradeSignals + [SignalOf(t)]);
    var logged := |s0.tradeLog|;
    var signalled := |s0.tradeSignals|;
    assert r.tradeLog[..logged] == s.tradeLog[..logged];
    assert r.tradeSignals[..signalled] == s.tradeSignals[..signalled];
    forall i | logged <= i < |r.tradeLog|
      ensures r.tradeLog[i].candleStickCount < c + 1
      ensures r.tradeSignals[signalled + (i - logged)] == SignalOf(r.tradeLog[i])
    {
      if i < |s.tradeLog| {
        assert r.tradeLog[i] == s.tradeLog[i];
        assert r.tradeSignals[signalled + (i - logged)] == s.tradeSignals[signalled + (i - logged)];
      }
    }
    forall i, j | logged <= i < j < |r.tradeLog|
      ensures r.tradeLog[i].candleStickCount < r.tradeLog[j].candleStickCount
    {
      assert r.tradeLog[i] == s.tradeLog[i];
    }
    assert (|r.tradeLog| - logged) as real * commission == (|s.tradeLog| - logged) as real * commission + commission;
  }

  /** One tick's action adds at most one record, at that tick, and keeps the
      run consistent up to the next tick. */
  lemma ApplyPreservesConsistency(s0: Session, s: Session, stockData: seq<Tick>, strategyName: string,
                                  baseLongPosition: int, baseShortPosition: int, c: nat, action: Action, info: Annotation)
    requires c < |stockData| && Consistent(s0, s, c)
    ensures var r := Apply(s, stockData, strategyName, baseLongPosition, baseShortPosition, c, action, info);
            && Consistent(s0, r, c + 1)
            && |s.tradeLog| <= |r.tradeLog| <= |s.tradeLog| + 1
            && (|r.tradeLog| == |s.tradeLog| + 1 ==> r.tradeLog[|s.tradeLog|].candleStickCount == c)
            && (action == Hold ==> r == s)
  {
    var price := stockData[c].close;
    var position := s.ledger.position;
    var shares :=
      if action == EnterLong then baseLongPosition
      else if action == EnterShort then baseShortPosition
      else if position > 0 then position else -position;
    var side :=
      if action == EnterLong then Long
      else if action == EnterShort then Short
      else if position > 0 then Short else Long;
    var l := if side == Long then LongFill(s.ledger, shares, price) else ShortFill(s.ledger, shares, price);
    var t := TradeRecordAt(stockData, strategyName, c, side, shares, l, info);
    if action == Hold || (action == Liquidate && position == 0) {
      assert Apply(s, stockData, strategyName, baseLongPosition, baseShortPosition, c, action, info) == s;
    } else {
      FillsPreserveEquity(s.ledger, shares, price);
      ConsistentAppend(s0, s, l, t, c);
      assert Apply(s, stockData, strategyName, baseLongPosition, baseShortPosition, c, action, info)
          == Session(l, s.tradeLog + [t], s.tradeSignals + [SignalOf(t)]);
    }
  }

  /** The position value stays within the exposure limits. */
  ghost predicate WithinExposure(l: Ledger) {
    maxShortPosition <= l.positionSize <= maxLongPosition
  }

  /** An entry that passed its limit check, of a non-negative size at a
      non-negative price, keeps the position value within the limits. */
  lemma EntryKeepsExposure(s: Session, stockData: seq<Tick>, strategyName: string,
                           baseLongPosition: int, baseShortPosition: int, c: nat, action: Action, info: Annotation)
    requires c < |stockData| && stockData[c].close >= 0.0
    requires baseLongPosition >= 0 && baseShortPosition >= 0
    requires WithinExposure(s.ledger) && action != Liquidate
    requires action == EnterLong ==> CheckLongIsInLimits(s.ledger.positionSize, c, baseLongPosition, stockData)
    requires action == EnterShort ==> CheckShortIsInLimits(s.ledger.positionSize, c, baseShortPosition, stockData)
    ensures WithinExposure(Apply(s, stockData, strategyName, baseLongPosition, baseShortPosition, c, action, info).ledger)
  {
    var price := stockData[c].close;
    assert baseLongPosition as real * price >= 0.0;
    assert baseShortPosition as real * price >= 0.0;
  }

  // ---------------------------------------------------------------------------
  // The strategy object

  class TradingStrategy {
    var strategyName: string
    /** Shares bought by a long entry. */
    var baseLongPosition: int
    /** Shares sold by a short entry. */
    var baseShortPosition: int
    const analyzer: Analysis
    const data: Data
    /** Fraction of equity used per long trade when resizing. */
    const dynamicTradingSizeLong: real
    /** Fraction of equity used per short trade when resizing. */
    const dynamicTradingSizeShort: real

    constructor (strategyName: string, analyzer: Analysis, data: Data)
      ensures this.strategyName == strategyName && this.analyzer == analyzer && this.data == data
      ensures baseLongPosition == 600 && baseShortPosition == 600
      ensures dynamicTradingSizeLong == 0.8 && dynamicTradingSizeShort == 0.8
    {
      this.strategyName := strategyName;
      baseLongPosition := 600;
      baseShortPosition := 600;
      this.analyzer := analyzer;
      this.data := data;
      dynamicTradingSizeLong := 0.8;
      dynamicTradingSizeShort := 0.8;
    }

    /** The ledger, trade log and signal list as a value. */
    function SessionOf(): Session
      reads analyzer, data
    {
      Session(analyzer.Snapshot(), data.tradeLog, data.tradeSignals)
    }

    /** Sets both trade sizes to the given fraction of equity (cash plus
        position value) divided by the close at tick c, truncated toward zero. */
    method ResizeTradingSize(candleStickCount: nat)
      requires candleStickCount < |data.stockData| && data.stockData[candleStickCount].close != 0.0
      modifies this
      ensures baseLongPosition == TruncateToInt(SizingShares(dynamicTradingSizeLong, analyzer.Snapshot(), data.stockData[candleStickCount].close))
      ensures baseShortPosition == TruncateToInt(SizingShares(dynamicTradingSizeShort, analyzer.Snapshot(), data.stockData[candleStickCount].close))
      ensures strategyName == old(strategyName)
    {
      var sharePrice := data.stockData[candleStickCount].close;
      var actualCurrentCash := analyzer.cash + analyzer.positionSize;
      baseLongPosition := TruncateToInt(dynamicTradingSizeLong * actualCurrentCash / sharePrice);
      baseShortPosition := TruncateToInt(dynamicTradingSizeShort * actualCurrentCash / sharePrice);
      assert SizingShares(dynamicTradingSizeLong, analyzer.Snapshot(), sharePrice) == dynamicTradingSizeLong * actualCurrentCash / sharePrice;
      assert SizingShares(dynamicTradingSizeShort, analyzer.Snapshot(), sharePrice) == dynamicTradingSizeShort * actualCurrentCash / sharePrice;
    }

    method PerformLongStockCalculations(candleStickCount: nat, positionSizeInShares: int)
      requires candleStickCount < |data.stockData|
      modifies analyzer
      ensures analyzer.Snapshot() == LongFill(old(analyzer.Snapshot()), positionSizeInShares, data.stockData[candleStickCount].close)
      ensures analyzer.strategy == old(analyzer.strategy)
    {
      var sharePrice := data.stockData[candleStickCount].close;
      analyzer.cash := analyzer.cash - positionSizeInShares as real * sharePrice;
      analyzer.positionSize := analyzer.positionSize + positionSizeInShares as real * sharePrice;
      analyzer.position := analyzer.position + positionSizeInShares;
      analyzer.commissionTotal := analyzer.commissionTotal + commission;
    }

    method PerformShortStockCalculations(candleStickCount: nat, positionSizeInShares: int)
      requires candleStickCount < |data.stockData|
      modifies analyzer
      ensures analyzer.Snapshot() == ShortFill(old(analyzer.Snapshot()), positionSizeInShares, data.stockData[candleStickCount].close)
      ensures analyzer.strategy == old(analyzer.strategy)
    {
      var sharePrice := data.stockData[candleStickCount].close;
      analyzer.cash := analyzer.cash + positionSizeInShares as real * sharePrice;
      analyzer.positionSize := analyzer.positionSize - positionSizeInShares as real * sharePrice;
      analyzer.position := analyzer.position - positionSizeInShares;
      analyzer.commissionTotal := analyzer.commissionTotal + commission;
    }

    /** Appends the record of a trade just applied to the ledger: the
        common details followed by the strategy-specific entry. */
    method AddRecord(candleStickCount: nat, positionType: Direction, positionSizeInShares: int, info: Annotation)
      requires candleStickCount < |data.stockData|
      modifies data`tradeLog
      ensures data.tradeLog == old(data.tradeLog) + [TradeRecordAt(data.stockData, strategyName, candleStickCount,
                                                                    positionType, positionSizeInShares, analyzer.Snapshot(), info)]
    {
      var sharePrice := data.stockData[candleStickCount].close;
      var trade := TradeRecord(candleStickCount, strategyName, positionType, positionSizeInShares, sharePrice,
                               positionSizeInShares as real * sharePrice, analyzer.position as real * sharePrice, info);
      assert trade == TradeRecordAt(data.stockData, strategyName, candleStickCount, positionType, positionSizeInShares,
                                    analyzer.Snapshot(), info);
      data.tradeLog := data.tradeLog + [trade];
    }

    /** Buys `positionSizeInShares` at tick c; the chart-refresh notification
        has no effect on the engine and is not modelled. */
    method LongStock(candleStickCount: nat, positionSizeInShares: int, info: Annotation)
      requires candleStickCount < |data.stockData|
      modifies analyzer, data`tradeLog, data`tradeSignals
      ensures SessionOf() == LongTrade(old(SessionOf()), data.stockData, strategyName, candleStickCount, positionSizeInShares, info)
      ensures analyzer.strategy == old(analyzer.strategy)
    {
      PerformLongStockCalculations(candleStickCount, positionSizeInShares);
      data.tradeSignals := data.tradeSignals + [TradeSignal(candleStickCount, Long)];
      AddRecord(candleStickCount, Long, positionSizeInShares, info);
    }

    /** Sells (or sells short) `positionSizeInShares` at tick c. */
    method ShortStock(candleStickCount: nat, positionSizeInShares: int, info: Annotation)
      requires candleStickCount < |data.stockData|
      modifies analyzer, data`tradeLog, data`tradeSignals
      ensures SessionOf() == ShortTrade(old(SessionOf()), data.stockData, strategyName, candleStickCount, positionSizeInShares, info)
      ensures analyzer.strategy == old(analyzer.strategy)
    {
      PerformShortStockCalculations(candleStickCount, positionSizeInShares);
      data.tradeSignals := data.tradeSignals + [TradeSignal(candleStickCount, Short)];
      AddRecord(candleStickCount, Short, positionSizeInShares, info);
    }

    /** Closes any open position at tick c, leaving it flat. */
    method LiquidateRemainingPosition(candleStickCount: nat, info: Annotation)
      requires candleStickCount < |data.stockData|
      modifies analyzer, data`tradeLog, data`tradeSignals
      ensures SessionOf() == Liquidation(old(SessionOf()), data.stockData, strategyName, candleStickCount, info)
      ensures analyzer.position == 0
      ensures analyzer.strategy == old(analyzer.strategy)
    {
      if analyzer.position > 0 {
        ShortStock(candleStickCount, analyzer.position, info);
      } else if analyzer.position < 0 {
        LongStock(candleStickCount, -analyzer.position, info);
      }
    }

    /** The Python code's liquidation: a short position is passed to the long
        fill with its negative sign, so it doubles. */
    method LiquidateRemainingPositionAsWritten(candleStickCount: nat, info: Annotation)
      requires candleStickCount < |data.stockData|
      modifies analyzer, data`tradeLog, data`tradeSignals
      ensures SessionOf() == LiquidationAsWritten(old(SessionOf()), data.stockData, strategyName, candleStickCount, info)
      ensures old(analyzer.position) < 0 ==> analyzer.position == 2 * old(analyzer.position)
      ensures analyzer.strategy == old(analyzer.strategy)
    {
      if analyzer.position > 0 {
        ShortStock(candleStickCount, analyzer.position, info);
      } else if analyzer.position < 0 {
        LongStock(candleStickCount, analyzer.position, info);
      }
    }
  }
}
