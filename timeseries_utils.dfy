/**
 * The HistoricalQuote helpers: the newest-first comparator and the in-place
 * sort built on it, the first and last quote of a sorted list, the
 * null-defaulting conversion of quotes to ticks, and the iterator that
 * walks a series' ticks from its end index down to its begin index.
 */
module TimeseriesUtils {
  import opened Wrappers
  import opened DateUtils

  /** A yahoofinance HistoricalQuote: its day, and prices and volume that may be null. */
  datatype HistoricalQuote = HistoricalQuote(
    date: Date,
    open: Option<real>,
    high: Option<real>,
    low: Option<real>,
    close: Option<real>,
    volume: Option<int>)

  /** A ta4j Tick: its day and its values. */
  datatype Tick = Tick(date: Date, open: real, high: real, low: real, close: real, volume: real)

  /**
   * A ta4j TimeSeries as far as the iterator sees it: its name, its begin
   * and end indices, and the tick at each index. LinearInterpolator and
   * the TimeSeries class are not part of this model.
   */
  datatype TimeSeries = TimeSeries(name: string, begin: int, end: int, tickAt: int -> Tick)

  // ------------------------------------------------------------------
  // Ordering
  // ------------------------------------------------------------------

  /**
   * getComparator: o2's date compared with o1's, so the later quote comes
   * first. Only the sign of LocalDate.compareTo is kept.
   */
  function Compare(o1: HistoricalQuote, o2: HistoricalQuote): (r: int)
    ensures r < 0 <==> o2.date < o1.date
    ensures r == 0 <==> o1.date == o2.date
    ensures r > 0 <==> o1.date < o2.date
  {
    if o2.date < o1.date then -1 else if o2.date == o1.date then 0 else 1
  }

  /** The comparator is a total preorder: its sign flips with its arguments and it is transitive. */
  lemma CompareIsTotalPreorder(a: HistoricalQuote, b: HistoricalQuote, c: HistoricalQuote)
    ensures Compare(a, b) < 0 <==> Compare(b, a) > 0
    ensures Compare(a, b) == 0 <==> Compare(b, a) == 0
    ensures Compare(a, b) <= 0 && Compare(b, c) <= 0 ==> Compare(a, c) <= 0
  {
  }

  /** Sorted by the comparator: newest first, dates never increasing. */
  ghost predicate SortedNewestFirst(quotes: seq<HistoricalQuote>) {
    forall i, j :: 0 <= i < j < |quotes| ==> quotes[j].date <= quotes[i].date
  }

  /** Sorted newest first means no later pair the comparator would swap. */
  lemma SortedMeansComparatorOrder(quotes: seq<HistoricalQuote>)
    ensures SortedNewestFirst(quotes) <==>
      forall i, j :: 0 <= i < j < |quotes| ==> Compare(quotes[i], quotes[j]) <= 0
  {
  }

  /**
   * sortQuoteList: sorts the list in place with the comparator and returns
   * that same list. Insertion sort by adjacent swaps stands in for
   * Collections.sort.
   */
  method SortQuoteList(history: array<HistoricalQuote>) returns (sorted: array<HistoricalQuote>)
    modifies history
    ensures sorted == history
    ensures SortedNewestFirst(history[..])
    ensures multiset(history[..]) == multiset(old(history[..]))
  {
    var i := 0;
    while i < history.Length
      invariant 0 <= i <= history.Length
      invariant SortedNewestFirst(history[..i])
      invariant multiset(history[..]) == multiset(old(history[..]))
    {
      InsertNewestFirst(history, i);
      i := i + 1;
    }
    assert history[..] == history[..history.Length];
    sorted := history;
  }

  /** One insertion step: moves history[i] down into the sorted prefix before it. */
  method InsertNewestFirst(history: array<HistoricalQuote>, i: int)
    requires 0 <= i < history.Length
    requires SortedNewestFirst(history[..i])
    modifies history
    ensures SortedNewestFirst(history[..i + 1])
    ensures forall k :: i < k < history.Length ==> history[k] == old(history[k])
    ensures multiset(history[..]) == multiset(old(history[..]))
  {
    var j := i;
    while 0 < j && history[j - 1].date < history[j].date
      invariant 0 <= j <= i
      invariant forall k :: i < k < history.Length ==> history[k] == old(history[k])
      invariant forall a, b :: 0 <= a < b <= i && b != j ==> history[b].date <= history[a].date
      invariant 0 < j < i ==> history[j + 1].date <= history[j - 1].date
      invariant multiset(history[..]) == multiset(old(history[..]))
    {
      Swap(history, j - 1, j);
      j := j - 1;
    }
  }

  /** Exchanges two entries of the array, leaving the others in place. */
  method Swap(a: array<HistoricalQuote>, x: int, y: int)
    requires 0 <= x < a.Length && 0 <= y < a.Length
    modifies a
    ensures a[x] == old(a[y]) && a[y] == old(a[x])
    ensures forall k :: 0 <= k < a.Length && k != x && k != y ==> a[k] == old(a[k])
    ensures multiset(a[..]) == multiset(old(a[..]))
  {
    a[x], a[y] := a[y], a[x];
  }

  /** getMostRecentQuote: the first quote, which after sorting has the latest date. */
  function MostRecentQuote(history: seq<HistoricalQuote>): (q: HistoricalQuote)
    requires history != []
    ensures q == history[0]
    ensures SortedNewestFirst(history) ==> forall p :: p in history ==> p.date <= q.date
  {
    history[0]
  }

  /** getOldestQuote: the last quote, which after sorting has the earliest date. */
  function OldestQuote(history: seq<HistoricalQuote>): (q: HistoricalQuote)
    requires history != []
    ensures q == history[|history| - 1]
    ensures SortedNewestFirst(history) ==> forall p :: p in history ==> q.date <= p.date
  {
    history[|history| - 1]
  }

  // ------------------------------------------------------------------
  // Conversion to ticks
  // ------------------------------------------------------------------

  /** ifNull: the first value unless it is null, else the second. */
  function IfNull<T>(value: Option<T>, fallback: Option<T>): (r: Option<T>)
    ensures value.Some? ==> r == value
    ensures value.None? ==> r == fallback
  {
    if value.None? then fallback else value
  }

  /**
   * One pass of getTimeSeries's loop: open, high and low default to the
   * close, volume to 0; None when unboxing a null throws
   * NullPointerException, which happens exactly when the close is null.
   */
  function QuoteToTick(q: HistoricalQuote): (t: Option<Tick>)
    ensures t.None? <==> q.close.None?
    ensures t.Some? ==>
      && t.value.date == q.date
      && t.value.close == q.close.value
      && t.value.open == (if q.open.Some? then q.open.value else q.close.value)
      && t.value.high == (if q.high.Some? then q.high.value else q.close.value)
      && t.value.low == (if q.low.Some? then q.low.value else q.close.value)
      && t.value.volume == (if q.volume.Some? then q.volume.value as real else 0.0)
  {
    var open := IfNull(q.open, q.close);
    var high := IfNull(q.high, q.close);
    var low := IfNull(q.low, q.close);
    var volume := IfNull(q.volume, Some(0));
    if open.None? || high.None? || low.None? || q.close.None? then None
    else Some(Tick(q.date, open.value, high.value, low.value, q.close.value, volume.value as real))
  }

  /** ticks are the quotes converted one by one, in the same order. */
  ghost predicate ConvertsTo(quotes: seq<HistoricalQuote>, ticks: seq<Tick>) {
    |ticks| == |quotes| && forall i :: 0 <= i < |quotes| ==> QuoteToTick(quotes[i]) == Some(ticks[i])
  }

  /** Conversion keeps the order: ticks of newest-first quotes are newest first. */
  lemma ConversionKeepsOrder(quotes: seq<HistoricalQuote>, ticks: seq<Tick>)
    requires ConvertsTo(quotes, ticks) && SortedNewestFirst(quotes)
    ensures forall i, j :: 0 <= i < j < |ticks| ==> ticks[j].date <= ticks[i].date
  {
    forall i, j | 0 <= i < j < |ticks| ensures ticks[j].date <= ticks[i].date {
      assert QuoteToTick(quotes[i]) == Some(ticks[i]);
      assert QuoteToTick(quotes[j]) == Some(ticks[j]);
    }
  }

  /**
   * The while loop of getTimeSeries: one tick per quote, in order, or None
   * (the method's null) as soon as a quote has a null close.
   */
  method ConvertQuotes(quotes: seq<HistoricalQuote>) returns (ticks: Option<seq<Tick>>)
    ensures ticks.None? <==> exists i :: 0 <= i < |quotes| && quotes[i].close.None?
    ensures ticks.Some? ==> ConvertsTo(quotes, ticks.value)
  {
    var converted: seq<Tick> := [];
    var i := 0;
    while i < |quotes|
      invariant 0 <= i <= |quotes|
      invariant |converted| == i
      invariant forall k :: 0 <= k < i ==> QuoteToTick(quotes[k]) == Some(converted[k])
    {
      var tick := QuoteToTick(quotes[i]);
      if tick.None? {
        return None;
      }
      converted := converted + [tick.value];
      i := i + 1;
    }
    return Some(converted);
  }

  /** What getTimeSeries yields: an exception, null, or the interpolated series. */
  datatype SeriesOutcome = SeriesFailed | NullSeries | Series(series: TimeSeries)

  /** The arrays a getTimeSeries call may sort. */
  function Frame(history: Option<array<HistoricalQuote>>): set<array<HistoricalQuote>> {
    if history.Some? then {history.value} else {}
  }

  /**
   * The quotes in the array were sorted newest first, and the outcome is
   * null if one of them has a null close, else the interpolation of their
   * ticks.
   */
  ghost predicate SortedAndConverted(quotes: array<HistoricalQuote>, before: seq<HistoricalQuote>, name: string,
                                     interpolate: (string, seq<Tick>) -> TimeSeries, outcome: SeriesOutcome)
    reads quotes
  {
    && SortedNewestFirst(quotes[..])
    && multiset(quotes[..]) == multiset(before)
    && (outcome == NullSeries <==> exists i :: 0 <= i < quotes.Length && quotes[i].close.None?)
    && !outcome.SeriesFailed?
    && (outcome.Series? ==> exists ticks :: ConvertsTo(quotes[..], ticks) && outcome.series == interpolate(name, ticks))
  }

  /**
   * getTimeSeries(stock, from, to): a stock with quotes is converted
   * without consulting any feed; otherwise the quotes come from the
   * fallback fetch, given here as its answer (None: empty; Some(None): a
   * stock with a null history, which the sort rejects).
   */
  method GetTimeSeries(name: string, history: Option<array<HistoricalQuote>>,
                       fallback: Option<Option<array<HistoricalQuote>>>,
                       interpolate: (string, seq<Tick>) -> TimeSeries)
    returns (outcome: SeriesOutcome)
    modifies Frame(history), if fallback.Some? then Frame(fallback.value) else {}
    ensures history.Some? && history.value.Length > 0 ==>
      SortedAndConverted(history.value, old(history.value[..]), name, interpolate, outcome)
    ensures !(history.Some? && history.value.Length > 0) ==>
      match fallback
      case None => outcome == NullSeries
      case Some(None) => outcome == SeriesFailed
      case Some(Some(quotes)) => SortedAndConverted(quotes, old(quotes[..]), name, interpolate, outcome)
    // Only the quotes that are converted are sorted; any other list is left as it was.
    ensures (history.Some? && history.value.Length > 0 && fallback.Some? && fallback.value.Some? &&
             fallback.value.value != history.value) ==> fallback.value.value[..] == old(fallback.value.value[..])
    ensures (history.Some? && history.value.Length == 0 && fallback.Some? && fallback.value.Some? &&
             fallback.value.value != history.value) ==> history.value[..] == old(history.value[..])
  {
    var quotes: array<HistoricalQuote>;
    if history.Some? && history.value.Length > 0 {
      quotes := history.value;
    } else if fallback.None? {
      return NullSeries;
    } else if fallback.value.None? {
      return SeriesFailed;
    } else {
      quotes := fallback.value.value;
    }
    var sorted := SortQuoteList(quotes);
    var ticks := ConvertQuotes(sorted[..]);
    if ticks.None? {
      return NullSeries;
    }
    return Series(interpolate(name, ticks.value));
  }

  // ------------------------------------------------------------------
  // getTimeSeriesIterator
  // ------------------------------------------------------------------

  /** The indices the iterator yields from index on: index, index - 1, ..., begin. */
  function IndicesDown(index: int, begin: int): seq<int>
    decreases index - begin + 1
  {
    if index > begin - 1 then [index] + IndicesDown(index - 1, begin) else []
  }

  /** From index down to begin inclusive, each index once: index - begin + 1 of them. */
  lemma {:induction false} IndicesDownSpec(index: int, begin: int)
    decreases index - begin + 1
    ensures |IndicesDown(index, begin)| == if begin <= index then index - begin + 1 else 0
    ensures forall k :: 0 <= k < |IndicesDown(index, begin)| ==> IndicesDown(index, begin)[k] == index - k
    ensures forall x :: x in IndicesDown(index, begin) <==> begin <= x <= index
  {
    if index > begin - 1 {
      IndicesDownSpec(index - 1, begin);
      var rest := IndicesDown(index - 1, begin);
      assert IndicesDown(index, begin) == [index] + rest;
      forall x | x in IndicesDown(index, begin) ensures begin <= x <= index {
        if x != index {
          assert x in rest;
        }
      }
      forall x | begin <= x <= index ensures x in IndicesDown(index, begin) {
        if x != index {
          assert x in rest;
        }
      }
    }
  }

  /** The iterator getTimeSeriesIterator returns: it counts index down from the series' end. */
  class TickIterator {
    const series: TimeSeries
    var index: int

    /** The indices still to be yielded. */
    ghost function Remaining(): seq<int>
      reads this
    {
      IndicesDown(index, series.begin)
    }

    constructor (series: TimeSeries)
      ensures this.series == series && index == series.end
      ensures Remaining() == IndicesDown(series.end, series.begin)
    {
      this.series := series;
      index := series.end;
    }

    method HasNext() returns (b: bool)
      ensures b <==> Remaining() != []
    {
      b := index > series.begin - 1;
    }

    method Next() returns (tick: Tick)
      modifies this
      ensures tick == series.tickAt(old(index)) && index == old(index) - 1
      ensures old(Remaining()) != [] ==> old(Remaining())[0] == old(index) && Remaining() == old(Remaining())[1..]
    {
      tick := series.tickAt(index);
      index := index - 1;
    }
  }
}
