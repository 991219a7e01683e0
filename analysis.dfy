/** The cash and position ledger of a simulation: its fixed starting values
    and exposure limits, the reset before a run, the mark-to-market after it,
    the long and short fills, and the two exposure-limit queries. */
module Analysis {
  import opened Data

  /** Starting cash ($). */
  const cashInitial: real := 100000.0
  /** Starting position (shares). */
  const positionInitial: int := 0
  /** Commission charged per trade ($). */
  const commission: real := 10.0
  /** Largest long position value a new trade may reach ($). */
  const maxLongPosition: real := cashInitial
  /** Most negative short position value a new trade may reach ($). */
  const maxShortPosition: real := -cashInitial

  /** The mutable part of the ledger. `positionSize` is the cash-equivalent of
      the position as accumulated by trades (each fill adds or removes
      shares * price at its own tick) until the run's mark-to-market. */
  datatype Ledger = Ledger(
    cash: real,
    position: int,
    positionSize: real,
    commissionTotal: real,
    cashUsed: real,
    PL: real)

  /** Cash plus the cash-equivalent of the position. */
  function Equity(l: Ledger): real {
    l.cash + l.positionSize
  }

  /** Reset before a run: cash, position and total commission go back to
      their starting values; the rest of the ledger is kept. */
  function PreRun(l: Ledger): Ledger {
    l.(cash := cashInitial, position := positionInitial, commissionTotal := 0.0)
  }

  /** After a run: the position is marked at the last close, the total
      commission is debited from cash, and the profit or loss is taken
      against the starting cash. */
  function PostRun(l: Ledger, lastClose: real): Ledger {
    var positionSize := l.position as real * lastClose;
    var cash := l.cash - l.commissionTotal;
    l.(positionSize := positionSize, cash := cash, PL := cash - cashInitial + positionSize)
  }

  /** A buy of `shares` at `price`. */
  function LongFill(l: Ledger, shares: int, price: real): Ledger {
    l.(cash := l.cash - shares as real * price,
       positionSize := l.positionSize + shares as real * price,
       position := l.position + shares,
       commissionTotal := l.commissionTotal + commission)
  }

  /** A sale (or short sale) of `shares` at `price`. */
  function ShortFill(l: Ledger, shares: int, price: real): Ledger {
    l.(cash := l.cash + shares as real * price,
       positionSize := l.positionSize - shares as real * price,
       position := l.position - shares,
       commissionTotal := l.commissionTotal + commission)
  }

  /** Whether adding `additionalPositionInShares` at tick c keeps the long
      position value within the limit; the limit itself counts as inside. */
  function CheckLongIsInLimits(currentPositionInCash: real, candleStickCount: nat,
                               additionalPositionInShares: int, stockData: seq<Tick>): (inLimits: bool)
    requires candleStickCount < |stockData|
    ensures inLimits <==> currentPositionInCash + additionalPositionInShares as real * stockData[candleStickCount].close <= maxLongPosition
  {
    !(currentPositionInCash + additionalPositionInShares as real * stockData[candleStickCount].close > maxLongPosition)
  }

  /** Whether shorting `additionalPositionInShares` at tick c keeps the short
      position value within the limit; the limit itself counts as inside. */
  function CheckShortIsInLimits(currentPositionInCash: real, candleStickCount: nat,
                                additionalPositionInShares: int, stockData: seq<Tick>): (inLimits: bool)
    requires candleStickCount < |stockData|
    ensures inLimits <==> currentPositionInCash - additionalPositionInShares as real * stockData[candleStickCount].close >= maxShortPosition
  {
    !(currentPositionInCash - additionalPositionInShares as real * stockData[candleStickCount].close < maxShortPosition)
  }

  // ---------------------------------------------------------------------------
  // Properties of the ledger operations

  /** The reset is idempotent and forgets the previous run: two ledgers that
      differ only in cash, position and total commission reset to the same
      ledger. */
  lemma PreRunIdempotent(l: Ledger, l': Ledger)
    requires l.positionSize == l'.positionSize && l.cashUsed == l'.cashUsed && l.PL == l'.PL
    ensures PreRun(PreRun(l)) == PreRun(l)
    ensures PreRun(l) == PreRun(l')
  {
  }

  /** Either fill moves value between cash and the position without changing
      their sum, and charges exactly one commission. */
  lemma FillsPreserveEquity(l: Ledger, shares: int, price: real)
    ensures Equity(LongFill(l, shares, price)) == Equity(l)
    ensures Equity(ShortFill(l, shares, price)) == Equity(l)
    ensures LongFill(l, shares, price).commissionTotal == l.commissionTotal + commission
    ensures ShortFill(l, shares, price).commissionTotal == l.commissionTotal + commission
  {
  }

  /** A long and a short of the same size at the same price, in either order,
      restore cash, position value and position, and cost two commissions. */
  lemma LongThenShortRestores(l: Ledger, shares: int, price: real)
    ensures ShortFill(LongFill(l, shares, price), shares, price)
         == l.(commissionTotal := l.commissionTotal + 2.0 * commission)
    ensures LongFill(ShortFill(l, shares, price), shares, price)
         == l.(commissionTotal := l.commissionTotal + 2.0 * commission)
  {
  }

  /** The profit or loss after a run is the marked equity, net of all
      commissions, minus the starting cash; for a flat position it is
      just the net cash gained. */
  lemma PostRunProfit(l: Ledger, lastClose: real)
    ensures Equity(PostRun(l, lastClose)) == l.cash - l.commissionTotal + l.position as real * lastClose
    ensures PostRun(l, lastClose).PL == Equity(PostRun(l, lastClose)) - cashInitial
    ensures l.position == 0 ==> PostRun(l, lastClose).PL == l.cash - l.commissionTotal - cashInitial
    ensures PostRun(l, lastClose).position == l.position
  {
  }

  /** Starting from 100000 in cash, a buy of 100 shares at 50 leaves 95000 in
      cash and 100 shares; after the run's commission debit cash is 94990. */
  lemma LongFillExample()
    ensures var l := LongFill(PreRun(Ledger(0.0, 0, 0.0, 0.0, 0.0, 0.0)), 100, 50.0);
            l.cash == 95000.0 && l.position == 100 && PostRun(l, 50.0).cash == 94990.0
  {
  }

  /** The two limit checks together confine the position value that a
      passing trade reaches to [maxShortPosition, maxLongPosition]. */
  lemma LimitChecksBoundFills(l: Ledger, c: nat, shares: int, stockData: seq<Tick>)
    requires c < |stockData|
    ensures CheckLongIsInLimits(l.positionSize, c, shares, stockData) ==>
              LongFill(l, shares, stockData[c].close).positionSize <= maxLongPosition
    ensures CheckShortIsInLimits(l.positionSize, c, shares, stockData) ==>
              ShortFill(l, shares, stockData[c].close).positionSize >= maxShortPosition
  {
  }

  // ---------------------------------------------------------------------------
  // The ledger object

  class Analysis {
    var cash: real
    var position: int
    var positionSize: real
    var commissionTotal: real
    var cashUsed: real
    var PL: real
    /** Index of the trading strategy selected in the interface. */
    var strategy: int

    constructor ()
      ensures Snapshot() == Ledger(cashInitial, positionInitial, 0.0, 0.0, 0.0, 0.0)
      ensures cash == 100000.0 && position == 0 && commission == 10.0
      ensures maxLongPosition == cashInitial && maxShortPosition == -cashInitial
      ensures strategy == 1
    {
      cash := cashInitial;
      position := positionInitial;
      positionSize := 0.0;
      commissionTotal := 0.0;
      cashUsed := 0.0;
      PL := 0.0;
      strategy := 1;
    }

    /** The ledger fields as a value. */
    function Snapshot(): Ledger
      reads this
    {
      Ledger(cash, position, positionSize, commissionTotal, cashUsed, PL)
    }

    method PreAnalysisCalculations()
      modifies this
      ensures Snapshot() == PreRun(old(Snapshot()))
      ensures strategy == old(strategy)
    {
      cash := cashInitial;
      position := positionInitial;
      commissionTotal := 0.0;
    }

    /** Needs a non-empty series: the last tick supplies the closing price. */
    method PostAnalysisCalculations(stockData: seq<Tick>)
      requires |stockData| > 0
      modifies this
      ensures Snapshot() == PostRun(old(Snapshot()), stockData[|stockData| - 1].close)
      ensures strategy == old(strategy)
    {
      positionSize := position as real * stockData[|stockData| - 1].close;
      cash := cash - commissionTotal;
      PL := cash - cashInitial + positionSize;
    }
  }
}
