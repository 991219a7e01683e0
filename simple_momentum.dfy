/** The simple momentum strategy: a long entry when the 15-tick average has
    been strictly rising over the last 15 ticks, a short entry when the sell
    average has been strictly falling over the last 5 ticks.  Any open
    position is closed at tick 389.  As the Python code writes it, the sell
    average is computed by the 15-tick averager, so both lists hold the
    15-tick average. */
module SimpleMomentum {
  import opened Data
  import opened Analysis
  import opened TechnicalMethods
  import opened TradingStrategy

  /** Duration of the buy average and of the rising test (ticks). */
  const durationForBuy: nat := 15
  /** Duration of the falling test, and of the sell averager (ticks). */
  const durationForSell: nat := 5
  /** Name written into every trade record of this strategy. */
  const momentumStrategyName: string := "Simple Momentum (15, 5)"

  /** The strategy-specific entry of a trade record at tick c: the buy
      average labelled Long(Buy) and the sell average labelled Short(Sell). */
  function StrategySpecificInfo(smaBuyList: seq<real>, smaSellList: seq<real>, c: nat): (info: Annotation)
    requires c < |smaBuyList| && c < |smaSellList|
    ensures info.firstLabel == "Long(Buy) SMA" && info.firstValue == smaBuyList[c]
    ensures info.secondLabel == "Short(Sell) SMA" && info.secondValue == smaSellList[c]
  {
    Annotation("Long(Buy) SMA", smaBuyList[c], "Short(Sell) SMA", smaSellList[c])
  }

  /** The if/elif chain of one tick.  Both limit checks use the position value
      at the top of the tick. */
  function Decide(stockData: seq<Tick>, smaBuyList: seq<real>, smaSellList: seq<real>,
                  positionSize: real, baseLongPosition: int, baseShortPosition: int, c: nat): Action
    requires c < |stockData| && |smaBuyList| == |stockData| && |smaSellList| == |stockData|
  {
    var additionalLongIsInLimits := CheckLongIsInLimits(positionSize, c, baseLongPosition, stockData);
    var additionalShortIsInLimits := CheckShortIsInLimits(positionSize, c, baseShortPosition, stockData);
    if c == 389 then Liquidate
    else if c > durationForBuy && additionalLongIsInLimits then
      if RisingOver(durationForBuy, c, smaBuyList) then EnterLong else Hold
    else if c > durationForSell && additionalShortIsInLimits then
      if FallingOver(durationForSell, c, smaSellList) then EnterShort else Hold
    else Hold
  }

  /** The session after ticks 0 .. n-1 have been visited in order, starting
      from s0. */
  function Run(stockData: seq<Tick>, smaBuyList: seq<real>, smaSellList: seq<real>, strategyName: string,
               baseLongPosition: int, baseShortPosition: int, s0: Session, n: nat): Session
    requires n <= |stockData| && |smaBuyList| == |stockData| && |smaSellList| == |stockData|
  {
    if n == 0 then s0
    else
      var s := Run(stockData, smaBuyList, smaSellList, strategyName, baseLongPosition, baseShortPosition, s0, n - 1);
      var action := Decide(stockData, smaBuyList, smaSellList, s.ledger.positionSize,
                           baseLongPosition, baseShortPosition, n - 1);
      Apply(s, stockData, strategyName, baseLongPosition, baseShortPosition, n - 1, action,
            StrategySpecificInfo(smaBuyList, smaSellList, n - 1))
  }

  // ---------------------------------------------------------------------------
  // The decision rules

  /** Liquidation happens exactly at tick 389; a long entry exactly when the
      tick is past 15, the long limit holds and the buy average rose over the
      last 15 ticks; a short entry exactly when the tick is past 5, the long
      branch was not taken, the short limit holds and the sell average fell
      over the last 5 ticks.  No trade at all before tick 6. */
  lemma DecideRules(stockData: seq<Tick>, smaBuyList: seq<real>, smaSellList: seq<real>,
                    positionSize: real, baseLongPosition: int, baseShortPosition: int, c: nat)
    requires c < |stockData| && |smaBuyList| == |stockData| && |smaSellList| == |stockData|
    ensures var action := Decide(stockData, smaBuyList, smaSellList, positionSize, baseLongPosition, baseShortPosition, c);
            var longOk := CheckLongIsInLimits(positionSize, c, baseLongPosition, stockData);
            var shortOk := CheckShortIsInLimits(positionSize, c, baseShortPosition, stockData);
            && (action == Liquidate <==> c == 389)
            && (action == EnterLong <==>
                  c != 389 && c > durationForBuy && longOk && RisingOver(durationForBuy, c, smaBuyList))
            && (action == EnterShort <==>
                  c != 389 && !(c > durationForBuy && longOk) && c > durationForSell && shortOk
                  && FallingOver(durationForSell, c, smaSellList))
            && (c <= durationForSell ==> action == Hold)
  {
  }

  /** Every entry passed its limit check at the top of its tick, so a long
      entry leaves the position value at most maxLongPosition and a short
      entry leaves it at least maxShortPosition. */
  lemma EntriesRespectLimits(stockData: seq<Tick>, smaBuyList: seq<real>, smaSellList: seq<real>,
                             strategyName: string, baseLongPosition: int, baseShortPosition: int, s: Session, c: nat)
    requires c < |stockData| && |smaBuyList| == |stockData| && |smaSellList| == |stockData|
    ensures var action := Decide(stockData, smaBuyList, smaSellList, s.ledger.positionSize, baseLongPosition, baseShortPosition, c);
            var r := Apply(s, stockData, strategyName, baseLongPosition, baseShortPosition, c, action,
                           StrategySpecificInfo(smaBuyList, smaSellList, c));
            && (action == EnterLong ==> r.ledger.positionSize <= maxLongPosition)
            && (action == EnterShort ==> r.ledger.positionSize >= maxShortPosition)
  {
    LimitChecksBoundFills(s.ledger, c, baseLongPosition, stockData);
    LimitChecksBoundFills(s.ledger, c, baseShortPosition, stockData);
  }

  /** With both lists equal, as the Python code computes them, a tick whose
      average rose over the last 15 ticks and fell over the last 5 does not
      exist past tick 15: the short rule can only fire where the long one
      cannot. */
  lemma SameListRisingExcludesFalling(ls: seq<real>, c: nat)
    requires durationForBuy < c < |ls|
    ensures RisingOver(durationForBuy, c, ls) ==> !FallingOver(durationForSell, c, ls)
  {
    if RisingOver(durationForBuy, c, ls) {
      assert ls[c - 1] < ls[c];
    }
  }

  // ---------------------------------------------------------------------------
  // Properties of a run

  /** A run visits ticks in increasing order and issues at most one trade
      per tick: it keeps the session consistent with its start. */
  lemma {:induction false} RunConsistent(stockData: seq<Tick>, smaBuyList: seq<real>, smaSellList: seq<real>,
                                         strategyName: string, baseLongPosition: int, baseShortPosition: int, s0: Session, n: nat)
    requires n <= |stockData| && |smaBuyList| == |stockData| && |smaSellList| == |stockData|
    ensures Consistent(s0, Run(stockData, smaBuyList, smaSellList, strategyName, baseLongPosition, baseShortPosition, s0, n), n)
  {
    if n == 0 {
      ConsistentStart(s0);
    } else {
      RunConsistent(stockData, smaBuyList, smaSellList, strategyName, baseLongPosition, baseShortPosition, s0, n - 1);
      var s := Run(stockData, smaBuyList, smaSellList, strategyName, baseLongPosition, baseShortPosition, s0, n - 1);
      var action := Decide(stockData, smaBuyList, smaSellList, s.ledger.positionSize, baseLongPosition, baseShortPosition, n - 1);
      var info := StrategySpecificInfo(smaBuyList, smaSellList, n - 1);
      ApplyPreservesConsistency(s0, s, stockData, strategyName, baseLongPosition, baseShortPosition, n - 1, action, info);
      assert Run(stockData, smaBuyList, smaSellList, strategyName, baseLongPosition, baseShortPosition, s0, n)
          == Apply(s, stockData, strategyName, baseLongPosition, baseShortPosition, n - 1, action, info);
    }
  }

  /** Before the end-of-day tick, with non-negative prices and trade sizes, the
      position value never leaves [maxShortPosition, maxLongPosition] once it
      starts inside. */
  lemma {:induction false} RunWithinExposure(stockData: seq<Tick>, smaBuyList: seq<real>, smaSellList: seq<real>,
                                             strategyName: string, baseLongPosition: int, baseShortPosition: int, s0: Session, n: nat)
    requires n <= |stockData| && |smaBuyList| == |stockData| && |smaSellList| == |stockData|
    requires n <= 389 && baseLongPosition >= 0 && baseShortPosition >= 0
    requires forall i :: 0 <= i < n ==> stockData[i].close >= 0.0
    requires WithinExposure(s0.ledger)
    ensures WithinExposure(Run(stockData, smaBuyList, smaSellList, strategyName, baseLongPosition, baseShortPosition, s0, n).ledger)
  {
    if n > 0 {
      RunWithinExposure(stockData, smaBuyList, smaSellList, strategyName, baseLongPosition, baseShortPosition, s0, n - 1);
      var s := Run(stockData, smaBuyList, smaSellList, strategyName, baseLongPosition, baseShortPosition, s0, n - 1);
      var action := Decide(stockData, smaBuyList, smaSellList, s.ledger.positionSize, baseLongPosition, baseShortPosition, n - 1);
      DecideRules(stockData, smaBuyList, smaSellList, s.ledger.positionSize, baseLongPosition, baseShortPosition, n - 1);
      EntryKeepsExposure(s, stockData, strategyName, baseLongPosition, baseShortPosition, n - 1, action,
                         StrategySpecificInfo(smaBuyList, smaSellList, n - 1));
    }
  }

  /** A full session of 390 ticks ends flat, and its profit after the
      mark-to-market is the starting equity less the position value left by
      the trades, less all commissions, less the starting cash. */
  lemma FullSessionEndsFlat(stockData: seq<Tick>, smaBuyList: seq<real>, smaSellList: seq<real>,
                            strategyName: string, baseLongPosition: int, baseShortPosition: int, s0: Session)
    requires |stockData| == 390 && |smaBuyList| == |stockData| && |smaSellList| == |stockData|
    ensures var s := Run(stockData, smaBuyList, smaSellList, strategyName, baseLongPosition, baseShortPosition, s0, 390);
            && s.ledger.position == 0
            && PostRun(s.ledger, stockData[389].close).PL
               == Equity(s0.ledger) - s.ledger.positionSize - s.ledger.commissionTotal - cashInitial
  {
    var s := Run(stockData, smaBuyList, smaSellList, strategyName, baseLongPosition, baseShortPosition, s0, 389);
    LiquidationFlattens(s, stockData, strategyName, 389, StrategySpecificInfo(smaBuyList, smaSellList, 389));
    RunConsistent(stockData, smaBuyList, smaSellList, strategyName, baseLongPosition, baseShortPosition, s0, 390);
  }

  // ---------------------------------------------------------------------------
  // The strategy object

  class SimpleMomentum {
    const strategy: TradingStrategy
    var smaBuyList: seq<real>
    var smaSellList: seq<real>

    constructor (analyzer: Analysis, data: Data)
      ensures fresh(strategy) && strategy.analyzer == analyzer && strategy.data == data
      ensures strategy.strategyName == momentumStrategyName
      ensures strategy.baseLongPosition == 600 && strategy.baseShortPosition == 600
      ensures smaBuyList == [] && smaSellList == []
    {
      strategy := new TradingStrategy(momentumStrategyName, analyzer, data);
      smaBuyList := [];
      smaSellList := [];
    }

    /** Computes the averages, then visits every tick once in increasing
        order, issuing the trade (if any) that the decision rules select.  The
        sell list is taken from the buy averager, so it equals the buy list. */
    method SimulateStrategy()
      modifies this, strategy.analyzer, strategy.data`tradeLog, strategy.data`tradeSignals
      ensures |smaBuyList| == |strategy.data.stockData| && smaSellList == smaBuyList
      ensures forall i :: 0 <= i < |strategy.data.stockData| ==>
                smaBuyList[i] == SmaAt(strategy.data.stockData, durationForBuy, i)
      ensures strategy.SessionOf()
           == Run(strategy.data.stockData, smaBuyList, smaSellList, strategy.strategyName,
                  strategy.baseLongPosition, strategy.baseShortPosition, old(strategy.SessionOf()), |strategy.data.stockData|)
      ensures strategy.analyzer.strategy == old(strategy.analyzer.strategy)
    {
      var stockData := strategy.data.stockData;
      var smaBuy := new SimpleMovingAverage(durationForBuy);
      smaBuyList := smaBuy.GetIndicators(stockData);
      var smaSell := new SimpleMovingAverage(durationForSell);
      smaSellList := smaBuy.GetIndicators(stockData);
      ghost var s0 := strategy.SessionOf();

      for candleStickCount := 0 to |stockData|
        modifies strategy.analyzer, strategy.data`tradeLog, strategy.data`tradeSignals
        invariant strategy.SessionOf()
               == Run(stockData, smaBuyList, smaSellList, strategy.strategyName,
                      strategy.baseLongPosition, strategy.baseShortPosition, s0, candleStickCount)
        invariant strategy.analyzer.strategy == old(strategy.analyzer.strategy)
      {
        var additionalLongIsInLimits := CheckLongIsInLimits(strategy.analyzer.positionSize, candleStickCount,
                                                            strategy.baseLongPosition, stockData);
        var additionalShortIsInLimits := CheckShortIsInLimits(strategy.analyzer.positionSize, candleStickCount,
                                                              strategy.baseShortPosition, stockData);
        var info := StrategySpecificInfo(smaBuyList, smaSellList, candleStickCount);

        if candleStickCount == 389 {
          // end of day liquidation
          strategy.LiquidateRemainingPosition(candleStickCount, info);
        } else if candleStickCount > durationForBuy && additionalLongIsInLimits {
          var rising := ValuesRisingInListForInterval(durationForBuy, candleStickCount, smaBuyList);
          if rising {
            strategy.LongStock(candleStickCount, strategy.baseLongPosition, info);
          }
        } else if candleStickCount > durationForSell && additionalShortIsInLimits {
          var falling := ValuesFallingInListForInterval(durationForSell, candleStickCount, smaSellList);
          if falling {
            strategy.ShortStock(candleStickCount, strategy.baseShortPosition, info);
          }
        }
      }
    }
  }
}
