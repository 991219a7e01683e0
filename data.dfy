/** The tick series of one trading day and the trade log and signal list that a
    simulation appends to, together with the two range statistics over the
    series and the in-place list clearing used before a refresh. */
module Data {

  /** One minute of market data, in the field order the series is stored in:
      date, close, high, low, open, volume, age in days. */
  datatype Tick = Tick(date: real, close: real, high: real, low: real, open: real, volume: real, cDays: real)

  /** Side of a trade; a signal stores it as 0 (Long) or 1 (Short). */
  datatype Direction = Long | Short

  /** A mark on the chart: the tick index and the side traded there. */
  datatype TradeSignal = TradeSignal(candleStickCount: nat, direction: Direction)

  /** The strategy-specific entry of a trade record: two labelled indicator values. */
  datatype Annotation = Annotation(firstLabel: string, firstValue: real, secondLabel: string, secondValue: real)

  /** A trade record, the eight entries in the order they are appended: tick,
      strategy name, position type, shares traded, price per share, cash spent or
      gained, position value after the trade, strategy-specific entry. */
  datatype TradeRecord = TradeRecord(
    candleStickCount: nat,
    strategyName: string,
    positionType: Direction,
    positionSizeInShares: int,
    pricePerShare: real,
    cashAmount: real,
    positionValue: real,
    info: Annotation)

  /** The signal that accompanies a trade record. */
  function SignalOf(trade: TradeRecord): TradeSignal {
    TradeSignal(trade.candleStickCount, trade.positionType)
  }

  /** The lists of a Data object that popList is applied to. */
  datatype ListKind = StockDataList | TradeLogList | TradeSignalsList

  /** Starting value of the running minimum in minLowInData. */
  const minLowSentinel: real := 200000000.0

  /** Starting value of the running maximum in maxHighInData. */
  const maxHighSentinel: real := 0.0

  class Data {
    var stockData: seq<Tick>
    var tradeLog: seq<TradeRecord>
    var tradeSignals: seq<TradeSignal>

    constructor ()
      ensures stockData == [] && tradeLog == [] && tradeSignals == []
    {
      stockData := [];
      tradeLog := [];
      tradeSignals := [];
    }

    /** Number of elements in the chosen list. */
    function Length(which: ListKind): nat
      reads this
    {
      match which
      case StockDataList => |stockData|
      case TradeLogList => |tradeLog|
      case TradeSignalsList => |tradeSignals|
    }

    /** Removes the last element of the chosen list, leaving the other lists alone. */
    method Pop(which: ListKind)
      requires Length(which) > 0
      modifies this
      ensures which == StockDataList ==> stockData == old(stockData[..|stockData| - 1])
      ensures which == TradeLogList ==> tradeLog == old(tradeLog[..|tradeLog| - 1])
      ensures which == TradeSignalsList ==> tradeSignals == old(tradeSignals[..|tradeSignals| - 1])
      ensures which != StockDataList ==> stockData == old(stockData)
      ensures which != TradeLogList ==> tradeLog == old(tradeLog)
      ensures which != TradeSignalsList ==> tradeSignals == old(tradeSignals)
    {
      match which
      case StockDataList => stockData := stockData[..|stockData| - 1];
      case TradeLogList => tradeLog := tradeLog[..|tradeLog| - 1];
      case TradeSignalsList => tradeSignals := tradeSignals[..|tradeSignals| - 1];
    }

    /** Pops the chosen list once per element it held, so that it ends empty;
        the other two lists are untouched. */
    method PopList(which: ListKind)
      modifies this
      ensures Length(which) == 0
      ensures which == StockDataList ==> stockData == []
      ensures which == TradeLogList ==> tradeLog == []
      ensures which == TradeSignalsList ==> tradeSignals == []
      ensures which != StockDataList ==> stockData == old(stockData)
      ensures which != TradeLogList ==> tradeLog == old(tradeLog)
      ensures which != TradeSignalsList ==> tradeSignals == old(tradeSignals)
    {
      var lsLength := Length(which);
      for i := 0 to lsLength
        invariant Length(which) == lsLength - i
        invariant which == StockDataList ==> stockData == old(stockData[..lsLength - i])
        invariant which == TradeLogList ==> tradeLog == old(tradeLog[..lsLength - i])
        invariant which == TradeSignalsList ==> tradeSignals == old(tradeSignals[..lsLength - i])
        invariant which != StockDataList ==> stockData == old(stockData)
        invariant which != TradeLogList ==> tradeLog == old(tradeLog)
        invariant which != TradeSignalsList ==> tradeSignals == old(tradeSignals)
      {
        Pop(which);
      }
    }

    /** The smallest low of the series, or the sentinel when no low is below it
        (in particular for an empty series). */
    method MinLowInData() returns (minPrice: real)
      ensures minPrice <= minLowSentinel
      ensures forall i :: 0 <= i < |stockData| ==> minPrice <= stockData[i].low
      ensures minPrice == minLowSentinel || exists i :: 0 <= i < |stockData| && minPrice == stockData[i].low
    {
      minPrice := minLowSentinel;
      for candleStickCount := 0 to |stockData|
        invariant minPrice <= minLowSentinel
        invariant forall i :: 0 <= i < candleStickCount ==> minPrice <= stockData[i].low
        invariant minPrice == minLowSentinel || exists i :: 0 <= i < candleStickCount && minPrice == stockData[i].low
      {
        if stockData[candleStickCount].low < minPrice {
          minPrice := stockData[candleStickCount].low;
        }
      }
    }

    /** The largest high of the series, or the sentinel 0 when no high is above
        it (in particular for an empty series). */
    method MaxHighInData() returns (maxPrice: real)
      ensures maxPrice >= maxHighSentinel
      ensures forall i :: 0 <= i < |stockData| ==> maxPrice >= stockData[i].high
      ensures maxPrice == maxHighSentinel || exists i :: 0 <= i < |stockData| && maxPrice == stockData[i].high
    {
      maxPrice := maxHighSentinel;
      for candleStickCount := 0 to |stockData|
        invariant maxPrice >= maxHighSentinel
        invariant forall i :: 0 <= i < candleStickCount ==> maxPrice >= stockData[i].high
        invariant maxPrice == maxHighSentinel || exists i :: 0 <= i < candleStickCount && maxPrice == stockData[i].high
      {
        if stockData[candleStickCount].high > maxPrice {
          maxPrice := stockData[candleStickCount].high;
        }
      }
    }
  }
}
