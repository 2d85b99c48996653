/**
 * The values and objects the stock feeds pass around: instruments, daily
 * bars, the headline quote, and the mutable StockV1 holder. StockV1,
 * StockQuoteBuilder, Instrument and ExtendedHistoricalQuote are not part of
 * this model; only the fields the feeds read and write are kept.
 */
module Stocks {
  import opened Wrappers
  import opened DateUtils

  /** An exact decimal amount (a BigDecimal or a ta4j Num). */
  type Price = real

  /** The data sources the feed factory is asked for. */
  datatype Source = Manual | Google | Yahoo | OtherSource(name: string)

  /** An instrument: its code and the source its web data comes from. */
  datatype Instrument = Instrument(code: string, source: Source)

  /** Instrument.CASH, whose definition is not part of this model: a chosen representative. */
  const Cash: Instrument := Instrument("CASH", Manual)

  /**
   * A daily bar: the code of its instrument, then its day and prices. The
   * bar's end time is kept as its calendar day, so two bars of one day
   * compare equal in the merge's sort; end times are taken to share one
   * zone and time of day, so the order of days is the order of end times.
   */
  datatype Bar = Bar(
    code: string,
    date: Date,
    open: Price,
    low: Price,
    high: Price,
    close: Price,
    adjClose: Price,
    volume: real,
    comment: string)

  /** The headline quote StockQuoteBuilder builds; a field it was not given stays None. */
  datatype StockQuote = StockQuote(
    instrument: Instrument,
    price: Option<Price>,
    dayHigh: Option<Price>,
    dayLow: Option<Price>,
    open: Option<Price>,
    avgVolume: Option<int>)

  /** A reference to a list of bars; None stands for null. */
  type History = Option<seq<Bar>>

  /**
   * What a call returning Optional<StockV1> produced: an exception,
   * Optional.empty(), or a stock holding the given history.
   */
  datatype Reply = Failed | Absent | Present(history: History)

  /**
   * The List<Bar> helpers of TimeseriesUtils that the feeds call; their code
   * is not part of this model. Both take the Optional<StockV1> they are
   * given: None for Optional.empty(), else the history of the stock it
   * holds. cleanUpSeries gives the stock's history after cleaning (for an
   * empty Optional any value it gives means only that it returned), or
   * None when it throws. interpolateAndSortSeries takes the range and the
   * interpolate flag as well.
   */
  datatype SeriesHelpers = SeriesHelpers(
    cleanUpSeries: Option<History> -> Option<History>,
    interpolateAndSortSeries: (Date, Date, bool, Option<History>) -> Reply)

  /** The dates of a list of bars. */
  function DatesOf(bars: seq<Bar>): set<Date> {
    set i | 0 <= i < |bars| :: bars[i].date
  }

  /** Dates strictly increase along the list: sorted, and one bar per date. */
  predicate StrictlyAscending(bars: seq<Bar>) {
    forall i, j :: 0 <= i < j < |bars| ==> bars[i].date < bars[j].date
  }

  predicate HasDuplicateDates(bars: seq<Bar>) {
    exists i, j :: 0 <= i < j < |bars| && bars[i].date == bars[j].date
  }

  /** The stock object whose history and quote the feeds overwrite. */
  class StockV1 {
    const instrument: Instrument
    var history: History
    var quote: Option<StockQuote>

    constructor (instrument: Instrument)
      ensures this.instrument == instrument && history == None && quote == None
    {
      this.instrument := instrument;
      history := None;
      quote := None;
    }

    /** A stock as a feed hands it back: new, holding the history it read. */
    constructor WithHistory(instrument: Instrument, history: History)
      ensures this.instrument == instrument && this.history == history && quote == None
    {
      this.instrument := instrument;
      this.history := history;
      quote := None;
    }
  }
}
