/** Indicators over one day's tick series: the simple moving average of the
    closes, strictly rising and strictly falling window tests, and the
    sustained-crossover tests used to confirm a trade. */
module TechnicalMethods {
  import opened Data

  // ---------------------------------------------------------------------------
  // Simple moving average: specification

  /** Sum of the closes of ticks lo .. hi-1. */
  function SumCloses(ticks: seq<Tick>, lo: nat, hi: nat): real
    requires lo <= hi <= |ticks|
    decreases hi - lo
  {
    if lo == hi then 0.0 else SumCloses(ticks, lo, hi - 1) + ticks[hi - 1].close
  }

  /** Taking the first close off the front of a window sum. */
  lemma {:induction false} SumClosesSplitFront(ticks: seq<Tick>, lo: nat, hi: nat)
    requires lo < hi <= |ticks|
    ensures SumCloses(ticks, lo, hi) == ticks[lo].close + SumCloses(ticks, lo + 1, hi)
    decreases hi - lo
  {
    if lo + 1 < hi {
      SumClosesSplitFront(ticks, lo, hi - 1);
    }
  }

  /** A window sum lies between count * lower and count * upper when every
      close in the window does. */
  lemma {:induction false} SumClosesBounds(ticks: seq<Tick>, lo: nat, hi: nat, lower: real, upper: real)
    requires lo <= hi <= |ticks|
    requires forall k :: lo <= k < hi ==> lower <= ticks[k].close <= upper
    ensures (hi - lo) as real * lower <= SumCloses(ticks, lo, hi) <= (hi - lo) as real * upper
    decreases hi - lo
  {
    if lo < hi {
      SumClosesBounds(ticks, lo, hi - 1, lower, upper);
      assert (hi - lo) as real * lower == (hi - 1 - lo) as real * lower + lower;
      assert (hi - lo) as real * upper == (hi - 1 - lo) as real * upper + upper;
    }
  }

  /** First tick of the averaging window at index i: the whole prefix during
      warm-up (i < duration - 1), the last `duration` ticks afterwards. */
  function WindowStart(duration: nat, i: nat): (start: nat)
    requires duration >= 1
    ensures start <= i
    ensures i + 1 - start == if i + 1 < duration then i + 1 else duration
  {
    if i + 1 <= duration then 0 else i + 1 - duration
  }

  /** The simple moving average at tick i: the mean close over the averaging
      window, i + 1 samples during warm-up and `duration` samples afterwards. */
  function SmaAt(ticks: seq<Tick>, duration: nat, i: nat): real
    requires duration >= 1 && i < |ticks|
  {
    SumCloses(ticks, WindowStart(duration, i), i + 1) / (i + 1 - WindowStart(duration, i)) as real
  }

  /** Each moving-average value lies between the smallest and the largest close
      of its window; in particular the average of a constant series is that
      constant. */
  lemma SmaWithinWindowRange(ticks: seq<Tick>, duration: nat, i: nat, lower: real, upper: real)
    requires duration >= 1 && i < |ticks|
    requires forall k :: WindowStart(duration, i) <= k <= i ==> lower <= ticks[k].close <= upper
    ensures lower <= SmaAt(ticks, duration, i) <= upper
  {
    var start := WindowStart(duration, i);
    var n := (i + 1 - start) as real;
    SumClosesBounds(ticks, start, i + 1, lower, upper);
    var s := SumCloses(ticks, start, i + 1);
    assert n > 0.0;
    assert n * lower <= s <= n * upper;
    assert s / n >= lower by {
      assert s / n * n == s;
    }
    assert s / n <= upper by {
      assert s / n * n == s;
    }
  }

  /** Once the window is full, consecutive averages differ by the entering
      close minus the leaving close, divided by the window length: the O(1)
      running-sum update. */
  lemma SmaRunningUpdate(ticks: seq<Tick>, duration: nat, i: nat)
    requires duration >= 1 && duration <= i < |ticks|
    ensures SmaAt(ticks, duration, i)
         == SmaAt(ticks, duration, i - 1) + (ticks[i].close - ticks[i - duration].close) / duration as real
  {
    SumClosesSplitFront(ticks, i - duration, i + 1);
    var d := duration as real;
    var prev := SumCloses(ticks, i - duration, i);
    var next := SumCloses(ticks, i + 1 - duration, i + 1);
    assert next == prev - ticks[i - duration].close + ticks[i].close;
    assert SmaAt(ticks, duration, i - 1) == prev / d;
    assert SmaAt(ticks, duration, i) == next / d;
  }

  // ---------------------------------------------------------------------------
  // Simple moving average: the indicator object

  class SimpleMovingAverage {
    const duration: nat

    constructor (duration: nat)
      ensures this.duration == duration
    {
      this.duration := duration;
    }

    /** One value per tick, computed in a single pass with a running sum that
        adds the entering close and, once the window is full (i >= duration),
        subtracts the close at i - duration that leaves it. */
    method GetIndicators(stockData: seq<Tick>) returns (returnList: seq<real>)
      requires duration >= 1
      ensures |returnList| == |stockData|
      ensures forall i :: 0 <= i < |stockData| ==> returnList[i] == SmaAt(stockData, duration, i)
    {
      var sum := 0.0;
      var tail := 0.0;
      var head := 0.0;
      returnList := [];
      for i := 0 to |stockData|
        invariant |returnList| == i
        invariant forall k :: 0 <= k < i ==> returnList[k] == SmaAt(stockData, duration, k)
        invariant sum == SumCloses(stockData, if i <= duration then 0 else i - duration, i)
      {
        if i < duration - 1 {
          sum := sum + stockData[i].close;
          returnList := returnList + [sum / (i + 1) as real];
        } else if i == duration - 1 {
          head := stockData[i].close;
          sum := sum + stockData[i].close;
          returnList := returnList + [sum / duration as real];
        } else {
          tail := stockData[i - duration].close;
          SumClosesSplitFront(stockData, i - duration, i + 1);
          sum := sum - tail;
          head := stockData[i].close;
          sum := sum + head;
          returnList := returnList + [sum / duration as real];
        }
      }
    }

    /** The loop as the Python code writes it: at i == duration - 1 the tail is
        read at index -1, which wraps to the last tick, and afterwards each
        step subtracts the tail read one step earlier.  The result equals the
        closed form SmaAsWrittenAt. */
    method GetIndicatorsAsWritten(stockData: seq<Tick>) returns (returnList: seq<real>)
      requires duration >= 1
      ensures |returnList| == |stockData|
      ensures forall i :: 0 <= i < |stockData| ==> returnList[i] == SmaAsWrittenAt(stockData, duration, i)
    {
      var sum := 0.0;
      var tail := 0.0;
      var head := 0.0;
      returnList := [];
      for i := 0 to |stockData|
        invariant |returnList| == i
        invariant forall k :: 0 <= k < i ==> returnList[k] == SmaAsWrittenAt(stockData, duration, k)
        invariant i <= duration - 1 ==> sum == SumCloses(stockData, 0, i)
        invariant i == duration ==> sum == SumCloses(stockData, 0, i) && tail == stockData[|stockData| - 1].close
        invariant i > duration ==> sum == SumCloses(stockData, i - 1 - duration, i) - stockData[|stockData| - 1].close
        invariant i > duration ==> tail == stockData[i - 1 - duration].close
      {
        if i < duration - 1 {
          sum := sum + stockData[i].close;
          returnList := returnList + [sum / (i + 1) as real];
        } else if i == duration - 1 {
          tail := PyIndex(stockData, i - duration).close;
          head := stockData[i].close;
          sum := sum + stockData[i].close;
          returnList := returnList + [sum / duration as real];
        } else {
          if i > duration {
            SumClosesSplitFront(stockData, i - 1 - duration, i + 1);
          }
          sum := sum - tail;
          head := stockData[i].close;
          sum := sum + head;
          tail := stockData[i - duration].close;
          returnList := returnList + [sum / duration as real];
        }
      }
    }
  }

  /** Python list indexing: a negative index counts from the end. */
  function PyIndex<T>(s: seq<T>, k: int): T
    requires -|s| <= k < |s|
  {
    if k < 0 then s[|s| + k] else s[k]
  }

  /** Closed form of what the Python code's loop produces: correct up to and
      including i == duration - 1; from i == duration on, the sum of the
      duration + 1 closes i - duration .. i minus the close of the last tick,
      divided by duration. */
  function SmaAsWrittenAt(ticks: seq<Tick>, duration: nat, i: nat): real
    requires duration >= 1 && i < |ticks|
  {
    if i < duration then SumCloses(ticks, 0, i + 1) / (i + 1) as real
    else (SumCloses(ticks, i - duration, i + 1) - ticks[|ticks| - 1].close) / duration as real
  }

  /** The Python code's values agree with the trailing mean during warm-up and
      are off by (close[i - duration] - close[last]) / duration afterwards. */
  lemma SmaAsWrittenDeviation(ticks: seq<Tick>, duration: nat, i: nat)
    requires duration >= 1 && i < |ticks|
    ensures i < duration ==> SmaAsWrittenAt(ticks, duration, i) == SmaAt(ticks, duration, i)
    ensures i >= duration ==>
              SmaAsWrittenAt(ticks, duration, i)
              == SmaAt(ticks, duration, i) + (ticks[i - duration].close - ticks[|ticks| - 1].close) / duration as real
  {
    if i >= duration {
      SumClosesSplitFront(ticks, i - duration, i + 1);
      var d := duration as real;
      var window := SumCloses(ticks, i + 1 - duration, i + 1);
      var shift := ticks[i - duration].close - ticks[|ticks| - 1].close;
      assert WindowStart(duration, i) == i + 1 - duration;
      assert SmaAt(ticks, duration, i) == window / d;
      assert SmaAsWrittenAt(ticks, duration, i) == (window + shift) / d;
      assert (window + shift) / d == window / d + shift / d;
    }
  }

  /** Closes 1, 2, 3 with duration 2: the Python code yields 1.5 at tick 2 where
      the trailing mean of closes 2 and 3 is 2.5. */
  lemma SmaAsWrittenCounterexample()
    ensures var ticks := [CloseOnly(1.0), CloseOnly(2.0), CloseOnly(3.0)];
            SmaAsWrittenAt(ticks, 2, 2) == 1.5 && SmaAt(ticks, 2, 2) == 2.5
  {
    var ticks := [CloseOnly(1.0), CloseOnly(2.0), CloseOnly(3.0)];
    assert SumCloses(ticks, 0, 3) == 6.0;
    assert SumCloses(ticks, 1, 3) == 5.0;
  }

  /** A tick that carries only a closing price. */
  function CloseOnly(close: real): Tick {
    Tick(0.0, close, close, close, close, 0.0, 0.0)
  }

  // ---------------------------------------------------------------------------
  // Rising and falling windows

  /** Lowest index j of the pairs (j, j + 1) compared when looking back
      `duration` values from `index`; the look-back is first clamped to
      `index` when index < duration. */
  function WindowLow(duration: int, index: nat): (lo: int)
    ensures lo >= 1
    ensures lo >= index - duration + 1
    ensures duration <= index ==> lo == index - duration + 1
    ensures index < duration ==> lo == 1
  {
    var clamped := if index - duration < 0 then index else duration;
    index - clamped + 1
  }

  /** ls[j] < ls[j + 1] for every compared pair. */
  predicate RisingOver(duration: int, index: nat, ls: seq<real>)
    requires index < |ls|
  {
    forall j :: WindowLow(duration, index) <= j < index ==> ls[j] < ls[j + 1]
  }

  /** ls[j] > ls[j + 1] for every compared pair. */
  predicate FallingOver(duration: int, index: nat, ls: seq<real>)
    requires index < |ls|
  {
    forall j :: WindowLow(duration, index) <= j < index ==> ls[j] > ls[j + 1]
  }

  /** Whether the values looking back `duration` from `index` have been
      strictly increasing. */
  method ValuesRisingInListForInterval(duration: int, index: nat, ls: seq<real>) returns (passed: bool)
    requires index < |ls|
    ensures passed <==> RisingOver(duration, index, ls)
  {
    passed := true;
    var d := duration;
    if index - d < 0 {
      d := index;
    }
    var lo := index - d + 1;
    var i := lo;
    while i < index
      invariant lo == WindowLow(duration, index)
      invariant lo <= i && (lo <= index ==> i <= index)
      invariant passed <==> forall j :: lo <= j < i && j < index ==> ls[j] < ls[j + 1]
    {
      if ls[i] >= ls[i + 1] {
        passed := false;
      }
      i := i + 1;
    }
  }

  /** Whether the values looking back `duration` from `index` have been
      strictly decreasing. */
  method ValuesFallingInListForInterval(duration: int, index: nat, ls: seq<real>) returns (passed: bool)
    requires index < |ls|
    ensures passed <==> FallingOver(duration, index, ls)
  {
    passed := true;
    var d := duration;
    if index - d < 0 {
      d := index;
    }
    var lo := index - d + 1;
    var i := lo;
    while i < index
      invariant lo == WindowLow(duration, index)
      invariant lo <= i && (lo <= index ==> i <= index)
      invariant passed <==> forall j :: lo <= j < i && j < index ==> ls[j] > ls[j + 1]
    {
      if ls[i] <= ls[i + 1] {
        passed := false;
      }
      i := i + 1;
    }
  }

  /** The window tests depend only on the values at indices
      max(1, index - duration + 1) .. index: never on ls[0] nor on anything
      after index. */
  lemma WindowTestsReadOnlyWindow(duration: int, index: nat, ls: seq<real>, ls': seq<real>)
    requires index < |ls| && index < |ls'|
    requires forall k :: WindowLow(duration, index) <= k <= index ==> ls[k] == ls'[k]
    ensures RisingOver(duration, index, ls) == RisingOver(duration, index, ls')
    ensures FallingOver(duration, index, ls) == FallingOver(duration, index, ls')
  {
  }

  /** With a look-back of at most one value there is no pair to compare. */
  lemma WindowTestsVacuous(duration: int, index: nat, ls: seq<real>)
    requires index < |ls| && duration <= 1
    ensures RisingOver(duration, index, ls) && FallingOver(duration, index, ls)
  {
  }

  /** A strictly rising window ends strictly above where it starts, and a
      strictly falling one strictly below. */
  lemma {:induction false} WindowEndpoints(duration: int, index: nat, ls: seq<real>)
    requires index < |ls| && WindowLow(duration, index) < index
    ensures RisingOver(duration, index, ls) ==> ls[WindowLow(duration, index)] < ls[index]
    ensures FallingOver(duration, index, ls) ==> ls[WindowLow(duration, index)] > ls[index]
  {
    var lo := WindowLow(duration, index);
    var k := lo + 1;
    while k < index
      invariant lo < k <= index
      invariant RisingOver(duration, index, ls) ==> ls[lo] < ls[k]
      invariant FallingOver(duration, index, ls) ==> ls[lo] > ls[k]
    {
      k := k + 1;
    }
  }

  /** The 1, 2, 3, 2, 1 example: rising over a window of 3 ending at index 2;
      falling over the two trailing comparisons ending at index 4. */
  lemma WindowTestsExample()
    ensures RisingOver(3, 2, [1.0, 2.0, 3.0, 2.0, 1.0])
    ensures FallingOver(3, 4, [1.0, 2.0, 3.0, 2.0, 1.0])
    ensures !RisingOver(3, 4, [1.0, 2.0, 3.0, 2.0, 1.0])
  {
    var ls := [1.0, 2.0, 3.0, 2.0, 1.0];
    assert WindowLow(3, 4) == 2;
    assert !(ls[2] < ls[3]);
  }

  // ---------------------------------------------------------------------------
  // Sustained crossovers

  /** smaShort[c - k] >= smaLong[c - k] for k = 0 .. delay - 1, that is at
      the indices c - delay + 1 .. c. */
  predicate SustainedAbove(delay: int, c: nat, smaShort: seq<real>, smaLong: seq<real>)
    requires c < |smaShort| && c < |smaLong| && delay <= c + 1
  {
    forall j :: c - delay < j <= c ==> smaShort[j] >= smaLong[j]
  }

  /** smaShort[c - k] <= smaLong[c - k] for k = 0 .. delay - 1, that is at
      the indices c - delay + 1 .. c. */
  predicate SustainedBelow(delay: int, c: nat, smaShort: seq<real>, smaLong: seq<real>)
    requires c < |smaShort| && c < |smaLong| && delay <= c + 1
  {
    forall j :: c - delay < j <= c ==> smaShort[j] <= smaLong[j]
  }

  /** Whether the shorter average has stayed at or above the longer one for
      the last `crossOverDelayLong` ticks up to and including c. */
  method CrossOverDelayForLongTradesPassed(crossOverDelayLong: int, candlestickCount: nat,
                                           smaShortList: seq<real>, smaLongList: seq<real>)
    returns (passed: bool)
    requires candlestickCount < |smaShortList| && candlestickCount < |smaLongList|
    requires crossOverDelayLong <= candlestickCount + 1
    ensures passed <==> SustainedAbove(crossOverDelayLong, candlestickCount, smaShortList, smaLongList)
  {
    passed := true;
    var ticksAgo := 0;
    while ticksAgo < crossOverDelayLong
      invariant 0 <= ticksAgo <= candlestickCount + 1
      invariant ticksAgo == 0 || ticksAgo <= crossOverDelayLong
      invariant passed <==> forall j :: candlestickCount - ticksAgo < j <= candlestickCount ==> smaShortList[j] >= smaLongList[j]
    {
      var shortCrossOverCountTicksAgo := smaShortList[candlestickCount - ticksAgo];
      var longCrossOverCountTicksAgo := smaLongList[candlestickCount - ticksAgo];
      if shortCrossOverCountTicksAgo < longCrossOverCountTicksAgo {
        passed := false;
      }
      ticksAgo := ticksAgo + 1;
    }
  }

  /** Whether the shorter average has stayed at or below the longer one for
      the last `crossOverDelayLong` ticks up to and including c. */
  method CrossOverDelayForShortTradesPassed(crossOverDelayLong: int, candlestickCount: nat,
                                            smaShortList: seq<real>, smaLongList: seq<real>)
    returns (passed: bool)
    requires candlestickCount < |smaShortList| && candlestickCount < |smaLongList|
    requires crossOverDelayLong <= candlestickCount + 1
    ensures passed <==> SustainedBelow(crossOverDelayLong, candlestickCount, smaShortList, smaLongList)
  {
    passed := true;
    var ticksAgo := 0;
    while ticksAgo < crossOverDelayLong
      invariant 0 <= ticksAgo <= candlestickCount + 1
      invariant ticksAgo == 0 || ticksAgo <= crossOverDelayLong
      invariant passed <==> forall j :: candlestickCount - ticksAgo < j <= candlestickCount ==> smaShortList[j] <= smaLongList[j]
    {
      var shortCrossOverCountTicksAgo := smaShortList[candlestickCount - ticksAgo];
      var longCrossOverCountTicksAgo := smaLongList[candlestickCount - ticksAgo];
      if shortCrossOverCountTicksAgo > longCrossOverCountTicksAgo {
        passed := false;
      }
      ticksAgo := ticksAgo + 1;
    }
  }

  /** A sustained crossover over `delay` ticks is also one over any shorter
      delay, and the long and short confirmations both hold exactly when the
      two averages coincide over the whole delay. */
  lemma SustainedCrossoverShape(delay: int, shorter: int, c: nat, smaShort: seq<real>, smaLong: seq<real>)
    requires c < |smaShort| && c < |smaLong| && delay <= c + 1 && shorter <= delay
    ensures SustainedAbove(delay, c, smaShort, smaLong) ==> SustainedAbove(shorter, c, smaShort, smaLong)
    ensures SustainedBelow(delay, c, smaShort, smaLong) ==> SustainedBelow(shorter, c, smaShort, smaLong)
    ensures SustainedAbove(delay, c, smaShort, smaLong) && SustainedBelow(delay, c, smaShort, smaLong)
        <==> forall j :: c - delay < j <= c ==> smaShort[j] == smaLong[j]
  {
  }

  /** Short averages 5, 5, 5, 5 over long averages 4, 4, 4, 4 with delay 3 at
      tick 3 confirm a long; raising the long average at index 1 to 6 does not. */
  lemma SustainedCrossoverExample()
    ensures SustainedAbove(3, 3, [5.0, 5.0, 5.0, 5.0], [4.0, 4.0, 4.0, 4.0])
    ensures !SustainedAbove(3, 3, [5.0, 5.0, 5.0, 5.0], [4.0, 6.0, 4.0, 4.0])
  {
    assert [4.0, 6.0, 4.0, 4.0][3 - 2] == 6.0;
  }
}
