/** The delayed simple-moving-average crossover strategy: a long entry needs
    the 15-tick average to have stayed at or above the 50-tick average for
    3 ticks; a short entry needs the 15-tick average to have just crossed to
    or below the 50-tick average.  Any open position is closed at tick 389. */
module SMACrossOverDelayed {
  import opened Data
  import opened Analysis
  import opened TechnicalMethods
  import opened TradingStrategy

  /** Duration of the shorter average (ticks). */
  const crossOverDurationShorter: nat := 15
  /** Duration of the longer average (ticks); no entry before it has passed. */
  const crossOverDurationLonger: nat := 50
  /** Ticks the crossover must be sustained before a long entry. */
  const crossOverDelayForLongTrades: nat := 3
  /** Declared beside the long delay; no rule of the strategy reads it. */
  const crossOverDelayForShortTrades: nat := 3
  /** Name written into every trade record of this strategy. */
  const crossOverStrategyName: string := "SMA Crossover(15,50) D=3"

  /** The strategy-specific entry of a trade record at tick c: the longer
      average labelled long-term and the shorter one labelled short-term. */
  function StrategySpecificInfo(smaShorterList: seq<real>, smaLongerList: seq<real>, c: nat): (info: Annotation)
    requires c < |smaShorterList| && c < |smaLongerList|
    ensures info.firstLabel == "long-term SMA" && info.firstValue == smaLongerList[c]
    ensures info.secondLabel == "short-term SMA" && info.secondValue == smaShorterList[c]
  {
    Annotation("long-term SMA", smaLongerList[c], "short-term SMA", smaShorterList[c])
  }

  /** The if/elif chain of one tick.  Both limit checks use the position value
      at the top of the tick.  The previous averages matter only once the tick
      is past the longer duration, so c - 1 is a plain index here. */
  function Decide(stockData: seq<Tick>, smaShorterList: seq<real>, smaLongerList: seq<real>,
                  positionSize: real, baseLongPosition: int, baseShortPosition: int, c: nat): Action
    requires c < |stockData| && |smaShorterList| == |stockData| && |smaLongerList| == |stockData|
  {
    var additionalLongIsInLimits := CheckLongIsInLimits(positionSize, c, baseLongPosition, stockData);
    var additionalShortIsInLimits := CheckShortIsInLimits(positionSize, c, baseShortPosition, stockData);
    if c == 389 then Liquidate
    else if c > crossOverDurationLonger && additionalLongIsInLimits then
      if SustainedAbove(crossOverDelayForLongTrades, c, smaShorterList, smaLongerList) then EnterLong else Hold
    else if c > crossOverDurationLonger && additionalShortIsInLimits then
      if smaShorterList[c - 1] > smaLongerList[c - 1] && smaShorterList[c] <= smaLongerList[c] then EnterShort else Hold
    else Hold
  }

  /** The session after ticks 0 .. n-1 have been visited in order, starting
      from s0. */
  function Run(stockData: seq<Tick>, smaShorterList: seq<real>, smaLongerList: seq<real>, strategyName: string,
               baseLongPosition: int, baseShortPosition: int, s0: Session, n: nat): Session
    requires n <= |stockData| && |smaShorterList| == |stockData| && |smaLongerList| == |stockData|
  {
    if n == 0 then s0
    else
      var s := Run(stockData, smaShorterList, smaLongerList, strategyName, baseLongPosition, baseShortPosition, s0, n - 1);
      var action := Decide(stockData, smaShorterList, smaLongerList, s.ledger.positionSize,
                           baseLongPosition, baseShortPosition, n - 1);
      Apply(s, stockData, strategyName, baseLongPosition, baseShortPosition, n - 1, action,
            StrategySpecificInfo(smaShorterList, smaLongerList, n - 1))
  }

  // ---------------------------------------------------------------------------
  // The decision rules

  /** Liquidation happens exactly at tick 389; a long entry exactly when the
      tick is past 50, the long limit holds and the crossover has been
      sustained for 3 ticks; a short entry exactly when the tick is past 50,
      the long limit fails, the short limit holds and the shorter average has
      just crossed to or below the longer one.  No entry before tick 51. */
  lemma DecideRules(stockData: seq<Tick>, smaShorterList: seq<real>, smaLongerList: seq<real>,
                    positionSize: real, baseLongPosition: int, baseShortPosition: int, c: nat)
    requires c < |stockData| && |smaShorterList| == |stockData| && |smaLongerList| == |stockData|
    ensures var action := Decide(stockData, smaShorterList, smaLongerList, positionSize, baseLongPosition, baseShortPosition, c);
            var longOk := CheckLongIsInLimits(positionSize, c, baseLongPosition, stockData);
            var shortOk := CheckShortIsInLimits(positionSize, c, baseShortPosition, stockData);
            && (action == Liquidate <==> c == 389)
            && (action == EnterLong <==>
                  c != 389 && c > crossOverDurationLonger && longOk
                  && SustainedAbove(crossOverDelayForLongTrades, c, smaShorterList, smaLongerList))
            && (action == EnterShort <==>
                  c != 389 && c > crossOverDurationLonger && !longOk && shortOk
                  && smaShorterList[c - 1] > smaLongerList[c - 1] && smaShorterList[c] <= smaLongerList[c])
            && (c <= crossOverDurationLonger ==> action == Hold)
  {
  }

  /** Every entry passed its limit check at the top of its tick, so a long
      entry leaves the position value at most maxLongPosition and a short
      entry leaves it at least maxShortPosition. */
  lemma EntriesRespectLimits(stockData: seq<Tick>, smaShorterList: seq<real>, smaLongerList: seq<real>,
                             strategyName: string, baseLongPosition: int, baseShortPosition: int, s: Session, c: nat)
    requires c < |stockData| && |smaShorterList| == |stockData| && |smaLongerList| == |stockData|
    ensures var action := Decide(stockData, smaShorterList, smaLongerList, s.ledger.positionSize, baseLongPosition, baseShortPosition, c);
            var r := Apply(s, stockData, strategyName, baseLongPosition, baseShortPosition, c, action,
                           StrategySpecificInfo(smaShorterList, smaLongerList, c));
            && (action == EnterLong ==> r.ledger.positionSize <= maxLongPosition)
            && (action == EnterShort ==> r.ledger.positionSize >= maxShortPosition)
  {
    LimitChecksBoundFills(s.ledger, c, baseLongPosition, stockData);
    LimitChecksBoundFills(s.ledger, c, baseShortPosition, stockData);
  }

  // ---------------------------------------------------------------------------
  // Properties of a run

  /** A run visits ticks in increasing order and issues at most one trade
      per tick: it keeps the session consistent with its start. */
  lemma {:induction false} RunConsistent(stockData: seq<Tick>, smaShorterList: seq<real>, smaLongerList: seq<real>,
                                         strategyName: string, baseLongPosition: int, baseShortPosition: int, s0: Session, n: nat)
    requires n <= |stockData| && |smaShorterList| == |stockData| && |smaLongerList| == |stockData|
    ensures Consistent(s0, Run(stockData, smaShorterList, smaLongerList, strategyName, baseLongPosition, baseShortPosition, s0, n), n)
  {
    if n == 0 {
      ConsistentStart(s0);
    } else {
      RunConsistent(stockData, smaShorterList, smaLongerList, strategyName, baseLongPosition, baseShortPosition, s0, n - 1);
      var s := Run(stockData, smaShorterList, smaLongerList, strategyName, baseLongPosition, baseShortPosition, s0, n - 1);
      var action := Decide(stockData, smaShorterList, smaLongerList, s.ledger.positionSize, baseLongPosition, baseShortPosition, n - 1);
      var info := StrategySpecificInfo(smaShorterList, smaLongerList, n - 1);
      ApplyPreservesConsistency(s0, s, stockData, strategyName, baseLongPosition, baseShortPosition, n - 1, action, info);
      assert Run(stockData, smaShorterList, smaLongerList, strategyName, baseLongPosition, baseShortPosition, s0, n)
          == Apply(s, stockData, strategyName, baseLongPosition, baseShortPosition, n - 1, action, info);
    }
  }

  /** Before the end-of-day tick, with non-negative prices and trade sizes, the
      position value never leaves [maxShortPosition, maxLongPosition] once it
      starts inside. */
  lemma {:induction false} RunWithinExposure(stockData: seq<Tick>, smaShorterList: seq<real>, smaLongerList: seq<real>,
                                             strategyName: string, baseLongPosition: int, baseShortPosition: int, s0: Session, n: nat)
    requires n <= |stockData| && |smaShorterList| == |stockData| && |smaLongerList| == |stockData|
    requires n <= 389 && baseLongPosition >= 0 && baseShortPosition >= 0
    requires forall i :: 0 <= i < n ==> stockData[i].close >= 0.0
    requires WithinExposure(s0.ledger)
    ensures WithinExposure(Run(stockData, smaShorterList, smaLongerList, strategyName, baseLongPosition, baseShortPosition, s0, n).ledger)
  {
    if n > 0 {
      RunWithinExposure(stockData, smaShorterList, smaLongerList, strategyName, baseLongPosition, baseShortPosition, s0, n - 1);
      var s := Run(stockData, smaShorterList, smaLongerList, strategyName, baseLongPosition, baseShortPosition, s0, n - 1);
      var action := Decide(stockData, smaShorterList, smaLongerList, s.ledger.positionSize, baseLongPosition, baseShortPosition, n - 1);
      DecideRules(stockData, smaShorterList, smaLongerList, s.ledger.positionSize, baseLongPosition, baseShortPosition, n - 1);
      EntryKeepsExposure(s, stockData, strategyName, baseLongPosition, baseShortPosition, n - 1, action,
                         StrategySpecificInfo(smaShorterList, smaLongerList, n - 1));
    }
  }

  /** A full session of 390 ticks ends flat, and its profit after the
      mark-to-market is the starting equity less the position value left by
      the trades, less all commissions, less the starting cash. */
  lemma FullSessionEndsFlat(stockData: seq<Tick>, smaShorterList: seq<real>, smaLongerList: seq<real>,
                            strategyName: string, baseLongPosition: int, baseShortPosition: int, s0: Session)
    requires |stockData| == 390 && |smaShorterList| == |stockData| && |smaLongerList| == |stockData|
    ensures var s := Run(stockData, smaShorterList, smaLongerList, strategyName, baseLongPosition, baseShortPosition, s0, 390);
            && s.ledger.position == 0
            && PostRun(s.ledger, stockData[389].close).PL
               == Equity(s0.ledger) - s.ledger.positionSize - s.ledger.commissionTotal - cashInitial
  {
    var s := Run(stockData, smaShorterList, smaLongerList, strategyName, baseLongPosition, baseShortPosition, s0, 389);
    LiquidationFlattens(s, stockData, strategyName, 389, StrategySpecificInfo(smaShorterList, smaLongerList, 389));
    RunConsistent(stockData, smaShorterList, smaLongerList, strategyName, baseLongPosition, baseShortPosition, s0, 390);
  }

  // ---------------------------------------------------------------------------
  // The strategy object

  class SMACrossOverDelayed {
    const strategy: TradingStrategy
    var smaShorterList: seq<real>
    var smaLongerList: seq<real>

    constructor (analyzer: Analysis, data: Data)
      ensures fresh(strategy) && strategy.analyzer == analyzer && strategy.data == data
      ensures strategy.strategyName == crossOverStrategyName
      ensures strategy.baseLongPosition == 600 && strategy.baseShortPosition == 600
      ensures smaShorterList == [] && smaLongerList == []
    {
      strategy := new TradingStrategy(crossOverStrategyName, analyzer, data);
      smaShorterList := [];
      smaLongerList := [];
    }

    /** Computes both averages, then visits every tick once in increasing
        order, issuing the trade (if any) that the decision rules select. */
    method SimulateStrategy()
      modifies this, strategy.analyzer, strategy.data`tradeLog, strategy.data`tradeSignals
      ensures |smaShorterList| == |strategy.data.stockData| && |smaLongerList| == |strategy.data.stockData|
      ensures forall i :: 0 <= i < |strategy.data.stockData| ==>
                smaShorterList[i] == SmaAt(strategy.data.stockData, crossOverDurationShorter, i)
                && smaLongerList[i] == SmaAt(strategy.data.stockData, crossOverDurationLonger, i)
      ensures strategy.SessionOf()
           == Run(strategy.data.stockData, smaShorterList, smaLongerList, strategy.strategyName,
                  strategy.baseLongPosition, strategy.baseShortPosition, old(strategy.SessionOf()), |strategy.data.stockData|)
      ensures strategy.analyzer.strategy == old(strategy.analyzer.strategy)
    {
      var stockData := strategy.data.stockData;
      var smaShorter := new SimpleMovingAverage(crossOverDurationShorter);
      smaShorterList := smaShorter.GetIndicators(stockData);
      var smaLonger := new SimpleMovingAverage(crossOverDurationLonger);
      smaLongerList := smaLonger.GetIndicators(stockData);
      ghost var s0 := strategy.SessionOf();

      for candleStickCount := 0 to |stockData|
        modifies strategy.analyzer, strategy.data`tradeLog, strategy.data`tradeSignals
        invariant strategy.SessionOf()
               == Run(stockData, smaShorterList, smaLongerList, strategy.strategyName,
                      strategy.baseLongPosition, strategy.baseShortPosition, s0, candleStickCount)
        invariant strategy.analyzer.strategy == old(strategy.analyzer.strategy)
      {
        // at tick 0 these read the last element, as Python's index -1 does;
        // they are compared only past tick 50
        var previousShortTermSMA := PyIndex(smaShorterList, candleStickCount - 1);
        var previousLongTermSMA := PyIndex(smaLongerList, candleStickCount - 1);
        var currentShortTermSMA := smaShorterList[candleStickCount];
        var currentLongTermSMA := smaLongerList[candleStickCount];
        var additionalLongIsInLimits := CheckLongIsInLimits(strategy.analyzer.positionSize, candleStickCount,
                                                            strategy.baseLongPosition, stockData);
        var additionalShortIsInLimits := CheckShortIsInLimits(strategy.analyzer.positionSize, candleStickCount,
                                                              strategy.baseShortPosition, stockData);
        var info := StrategySpecificInfo(smaShorterList, smaLongerList, candleStickCount);

        if candleStickCount == 389 {
          // end of day liquidation
          strategy.LiquidateRemainingPosition(candleStickCount, info);
        } else if candleStickCount > crossOverDurationLonger && additionalLongIsInLimits {
          var passed := CrossOverDelayForLongTradesPassed(crossOverDelayForLongTrades, candleStickCount,
                                                          smaShorterList, smaLongerList);
          if passed {
            strategy.LongStock(candleStickCount, strategy.baseLongPosition, info);
          }
        } else if candleStickCount > crossOverDurationLonger && additionalShortIsInLimits {
          if previousShortTermSMA > previousLongTermSMA && currentShortTermSMA <= currentLongTermSMA {
            strategy.ShortStock(candleStickCount, strategy.baseShortPosition, info);
          }
        }
      }
    }
  }
}
