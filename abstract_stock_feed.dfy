/**
 * The shared behaviour of the stock feeds: deriving a stock's headline quote
 * from its last bar, creating stocks, the clean-then-interpolate fetch, and
 * merging two bar histories into one bar per date, sorted by date.
 */
module AbstractStockFeed {
  import opened Wrappers
  import opened DateUtils
  import opened Stocks

  // ------------------------------------------------------------------
  // Headline quote (addQuoteToSeries, createStock)
  // ------------------------------------------------------------------

  /** Num.longValue(): the volume with its fraction dropped, toward zero. */
  function TruncateTowardZero(v: real): (n: int)
    ensures 0.0 <= v ==> n as real <= v < n as real + 1.0
    ensures v < 0.0 ==> n as real - 1.0 < v <= n as real
  {
    if 0.0 <= v then v.Floor else -((-v).Floor)
  }

  /**
   * The quote a bar gives: price is its close, the day's high and low are
   * its high and low, and the average volume is its volume truncated.
   */
  predicate IsQuoteOf(q: StockQuote, instrument: Instrument, bar: Bar) {
    && q.instrument == instrument
    && q.price == Some(bar.close)
    && q.dayHigh == Some(bar.high)
    && q.dayLow == Some(bar.low)
    && q.open == Some(bar.open)
    && q.avgVolume == Some(TruncateTowardZero(bar.volume))
  }

  function QuoteFromBar(instrument: Instrument, bar: Bar): StockQuote {
    StockQuote(instrument, Some(bar.close), Some(bar.high), Some(bar.low), Some(bar.open),
               Some(TruncateTowardZero(bar.volume)))
  }

  /**
   * addQuoteToSeries: with a non-null, non-empty list, the stock gets the
   * quote of the list's last bar and the list as its history; otherwise
   * the stock is left as it was.
   */
  method AddQuoteToSeries(instrument: Instrument, quotes: History, stock: StockV1)
    modifies stock
    ensures quotes.Some? && quotes.value != [] ==>
      && stock.history == quotes
      && stock.quote.Some?
      && IsQuoteOf(stock.quote.value, instrument, quotes.value[|quotes.value| - 1])
    ensures quotes.None? || quotes.value == [] ==>
      stock.history == old(stock.history) && stock.quote == old(stock.quote)
  {
    if quotes.Some? && quotes.value != [] {
      var last := quotes.value[|quotes.value| - 1];
      stock.quote := Some(QuoteFromBar(instrument, last));
      stock.history := quotes;
    }
  }

  /**
   * createStock(instrument, quotes): a new stock whose history is the list
   * as given, null or empty included, quoted from its last bar if it has one.
   */
  method CreateStock(instrument: Instrument, quotes: History) returns (stock: StockV1)
    ensures fresh(stock)
    ensures stock.instrument == instrument && stock.history == quotes
    ensures quotes.Some? && quotes.value != [] ==>
      stock.quote.Some? && IsQuoteOf(stock.quote.value, instrument, quotes.value[|quotes.value| - 1])
    ensures quotes.None? || quotes.value == [] ==> stock.quote == None
  {
    stock := new StockV1(instrument);
    stock.history := quotes;
    AddQuoteToSeries(instrument, quotes, stock);
  }

  /** createStock(instrument): a new stock with a null history and no quote. */
  method CreateEmptyStock(instrument: Instrument) returns (stock: StockV1)
    ensures fresh(stock)
    ensures stock.instrument == instrument && stock.history == None && stock.quote == None
  {
    stock := CreateStock(instrument, None);
  }

  // ------------------------------------------------------------------
  // Clean then interpolate (get with interpolate and cleanData flags)
  // ------------------------------------------------------------------

  /** The Optional<StockV1> a reply that is not a failure stands for: None when empty. */
  function AsOptional(reply: Reply): Option<History>
    requires !reply.Failed?
  {
    if reply.Present? then Some(reply.history) else None
  }

  /**
   * What get(instrument, from, to, interpolate, cleanData) returns, given
   * what the feed's own get returned. cleanUpSeries is called on the
   * Optional whenever cleanData is set, empty or not; an exception from
   * the feed or from the cleaning propagates.
   */
  function CleanThenInterpolate(fetched: Reply, fromDate: Date, toDate: Date, interpolate: bool,
                                cleanData: bool, helpers: SeriesHelpers): (r: Reply)
    ensures fetched.Failed? ==> r.Failed?
    ensures !cleanData && !fetched.Failed? ==>
      r == helpers.interpolateAndSortSeries(fromDate, toDate, interpolate, AsOptional(fetched))
    ensures cleanData && !fetched.Failed? && helpers.cleanUpSeries(AsOptional(fetched)).None? ==> r.Failed?
    ensures cleanData && fetched.Present? && helpers.cleanUpSeries(Some(fetched.history)).Some? ==>
      r == helpers.interpolateAndSortSeries(fromDate, toDate, interpolate,
                                            Some(helpers.cleanUpSeries(Some(fetched.history)).value))
    ensures cleanData && fetched.Absent? && helpers.cleanUpSeries(None).Some? ==>
      r == helpers.interpolateAndSortSeries(fromDate, toDate, interpolate, None)
  {
    if fetched.Failed? then Failed
    else
      var data := AsOptional(fetched);
      if !cleanData then helpers.interpolateAndSortSeries(fromDate, toDate, interpolate, data)
      else match helpers.cleanUpSeries(data)
        case None => Failed
        case Some(cleaned) =>
          // An empty Optional stays empty; a present stock now holds the cleaned history.
          var after := if data.Some? then Some(cleaned) else None;
          helpers.interpolateAndSortSeries(fromDate, toDate, interpolate, after)
  }

  // ------------------------------------------------------------------
  // Series merge: specification
  // ------------------------------------------------------------------

  /** Every key of the map is the date of the bar it maps to. */
  ghost predicate KeyedByDate(m: map<Date, Bar>) {
    forall d :: d in m ==> m[d].date == d
  }

  /**
   * Collectors.toMap over the bars, keyed by date: None when two bars share
   * a date, where toMap throws IllegalStateException.
   */
  function ToDateMap(bars: seq<Bar>): Option<map<Date, Bar>> {
    if bars == [] then Some(map[])
    else match ToDateMap(bars[..|bars| - 1])
      case None => None
      case Some(m) =>
        var bar := bars[|bars| - 1];
        if bar.date in m then None else Some(m[bar.date := bar])
  }

  /**
   * The forEach over newSeries: a bar is put in the map only when its date
   * is not yet a key and its close is not zero.
   */
  function AdmitNew(m: map<Date, Bar>, newSeries: seq<Bar>, closeIsZero: Price -> bool): map<Date, Bar> {
    if newSeries == [] then m
    else
      var before := AdmitNew(m, newSeries[..|newSeries| - 1], closeIsZero);
      var bar := newSeries[|newSeries| - 1];
      if bar.date !in before && !closeIsZero(bar.close) then before[bar.date := bar] else before
  }

  /** The dates of the bars of newSeries whose close is not zero. */
  function AdmissibleDates(newSeries: seq<Bar>, closeIsZero: Price -> bool): set<Date> {
    set i | 0 <= i < |newSeries| && !closeIsZero(newSeries[i].close) :: newSeries[i].date
  }

  /** newSeries[i] is the first bar of its date in newSeries whose close is not zero. */
  ghost predicate FirstAdmissible(newSeries: seq<Bar>, closeIsZero: Price -> bool, i: int) {
    && 0 <= i < |newSeries|
    && !closeIsZero(newSeries[i].close)
    && forall j :: 0 <= j < i && newSeries[j].date == newSeries[i].date ==> closeIsZero(newSeries[j].close)
  }

  /** k is the earliest date in the map. */
  predicate IsEarliestDate(m: map<Date, Bar>, k: Date) {
    k in m && forall j :: j in m ==> k <= j
  }

  lemma EarliestUnique(m: map<Date, Bar>, a: Date, b: Date)
    requires IsEarliestDate(m, a) && IsEarliestDate(m, b)
    ensures a == b
  {
    assert a <= b;
    assert b <= a;
  }

  lemma HasElement(keys: set<Date>)
    requires keys != {}
    ensures exists x :: x in keys
  {
    if forall x :: x !in keys {
      assert false;
    }
  }

  /** The least of a non-empty set of dates. */
  ghost function Least(keys: set<Date>): (k: Date)
    requires keys != {}
    decreases |keys|
    ensures k in keys && forall j :: j in keys ==> k <= j
  {
    HasElement(keys);
    var x :| x in keys;
    if forall j :: j in keys ==> x <= j then x
    else
      var y :| y in keys && y < x;
      assert y in keys - {x};
      var k := Least(keys - {x});
      LeastOfRestIsLeast(keys, x, k);
      k
  }

  lemma LeastOfRestIsLeast(keys: set<Date>, x: Date, k: Date)
    requires x in keys && k < x
    requires forall j :: j in keys - {x} ==> k <= j
    ensures forall j :: j in keys ==> k <= j
  {
    forall j | j in keys ensures k <= j {
      if j != x {
        assert j in keys - {x};
      }
    }
  }

  /**
   * The map's bars in ascending date order: the list the LinkedList sort
   * produces, which is unique because the keys are distinct.
   */
  ghost function ByDate(m: map<Date, Bar>): seq<Bar>
    decreases |m.Keys|
  {
    if m.Keys == {} then []
    else
      var k := Least(m.Keys);
      assert (m - {k}).Keys == m.Keys - {k};
      [m[k]] + ByDate(m - {k})
  }

  /**
   * mergeSeries(stock, original, newSeries): the history it writes into
   * the stock, or None when it throws (a null list, or a date repeated in
   * original). The null-date guard never fires, since a bar's end time
   * always has a date.
   */
  ghost function MergedHistory(original: History, newSeries: History, closeIsZero: Price -> bool): (r: Option<seq<Bar>>)
    ensures r.None? <==> original.None? || newSeries.None? || HasDuplicateDates(original.value)
  {
    if original.None? then None
    else
      ToDateMapFailsOnDuplicate(original.value);
      match ToDateMap(original.value)
      case None => None
      case Some(dates) =>
        if newSeries.None? then None
        else Some(ByDate(AdmitNew(dates, newSeries.value, closeIsZero)))
  }

  // ------------------------------------------------------------------
  // Series merge: properties
  // ------------------------------------------------------------------

  /** When toMap succeeds, its keys are the bars' dates and each bar is found under its date. */
  lemma {:induction false} ToDateMapContents(bars: seq<Bar>)
    decreases |bars|
    ensures ToDateMap(bars).Some? ==>
      && ToDateMap(bars).value.Keys == DatesOf(bars)
      && KeyedByDate(ToDateMap(bars).value)
      && forall i :: 0 <= i < |bars| ==> ToDateMap(bars).value[bars[i].date] == bars[i]
  {
    if bars != [] && ToDateMap(bars).Some? {
      var n := |bars| - 1;
      var prefix := bars[..n];
      var bar := bars[n];
      ToDateMapContents(prefix);
      var m := ToDateMap(prefix).value;
      assert ToDateMap(bars).value == m[bar.date := bar];
      assert DatesOf(bars) == DatesOf(prefix) + {bar.date} by {
        forall d | d in DatesOf(bars) ensures d in DatesOf(prefix) + {bar.date} {
          var i :| 0 <= i < |bars| && bars[i].date == d;
          if i < n {
            assert prefix[i].date == d;
          }
        }
        forall d | d in DatesOf(prefix) ensures d in DatesOf(bars) {
          var i :| 0 <= i < n && prefix[i].date == d;
          assert bars[i].date == d;
        }
      }
      forall i | 0 <= i < |bars| ensures m[bar.date := bar][bars[i].date] == bars[i] {
        if i < n {
          assert prefix[i] == bars[i];
          assert prefix[i].date in DatesOf(prefix);
        }
      }
    }
  }

  /** toMap fails exactly when two bars share a date. */
  lemma {:induction false} ToDateMapFailsOnDuplicate(bars: seq<Bar>)
    decreases |bars|
    ensures ToDateMap(bars).None? <==> HasDuplicateDates(bars)
  {
    if bars != [] {
      var n := |bars| - 1;
      var prefix := bars[..n];
      var bar := bars[n];
      ToDateMapFailsOnDuplicate(prefix);
      ToDateMapContents(prefix);
      if HasDuplicateDates(prefix) {
        PrefixDuplicateIsDuplicate(bars);
      } else if bar.date in ToDateMap(prefix).value {
        assert bar.date in DatesOf(prefix);
        var i :| 0 <= i < n && prefix[i].date == bar.date;
        assert bars[i].date == bars[n].date;
      } else {
        NewLastDateKeepsDistinct(bars);
      }
    }
  }

  /** A date repeated in all but the last bar is repeated in the whole list. */
  lemma PrefixDuplicateIsDuplicate(bars: seq<Bar>)
    requires bars != [] && HasDuplicateDates(bars[..|bars| - 1])
    ensures HasDuplicateDates(bars)
  {
    var prefix := bars[..|bars| - 1];
    var i, j :| 0 <= i < j < |prefix| && prefix[i].date == prefix[j].date;
    assert bars[i].date == bars[j].date;
  }

  /** A last bar on a date the others lack keeps the dates of a list distinct. */
  lemma NewLastDateKeepsDistinct(bars: seq<Bar>)
    requires bars != [] && !HasDuplicateDates(bars[..|bars| - 1])
    requires bars[|bars| - 1].date !in DatesOf(bars[..|bars| - 1])
    ensures !HasDuplicateDates(bars)
  {
    var n := |bars| - 1;
    var prefix := bars[..n];
    forall i, j | 0 <= i < j < |bars| ensures bars[i].date != bars[j].date {
      if j < n {
        assert prefix[i].date != prefix[j].date;
      } else {
        assert prefix[i].date in DatesOf(prefix);
      }
    }
  }

  /** Keeping the first bars of newSeries that pass keeps the first ones of any longer prefix. */
  lemma FirstAdmissiblePrefix(newSeries: seq<Bar>, closeIsZero: Price -> bool, n: int)
    requires 0 <= n <= |newSeries|
    ensures forall i :: FirstAdmissible(newSeries[..n], closeIsZero, i) <==> 0 <= i < n && FirstAdmissible(newSeries, closeIsZero, i)
  {
    assert forall i :: 0 <= i < n ==> newSeries[..n][i] == newSeries[i];
  }

  /** The admissible dates of a list are those of its prefix plus its last bar's, if that passes. */
  lemma AdmissibleDatesSnoc(newSeries: seq<Bar>, closeIsZero: Price -> bool)
    requires newSeries != []
    ensures AdmissibleDates(newSeries, closeIsZero) ==
      AdmissibleDates(newSeries[..|newSeries| - 1], closeIsZero) +
      (if closeIsZero(newSeries[|newSeries| - 1].close) then {} else {newSeries[|newSeries| - 1].date})
  {
    var n := |newSeries| - 1;
    var prefix := newSeries[..n];
    forall d | d in AdmissibleDates(newSeries, closeIsZero)
      ensures d in AdmissibleDates(prefix, closeIsZero) + (if closeIsZero(newSeries[n].close) then {} else {newSeries[n].date})
    {
      var i :| 0 <= i < |newSeries| && !closeIsZero(newSeries[i].close) && newSeries[i].date == d;
      if i < n {
        assert prefix[i].date == d;
      }
    }
    forall d | d in AdmissibleDates(prefix, closeIsZero) ensures d in AdmissibleDates(newSeries, closeIsZero) {
      var i :| 0 <= i < |prefix| && !closeIsZero(prefix[i].close) && prefix[i].date == d;
      assert newSeries[i] == prefix[i];
    }
  }

  /**
   * The admitting pass keeps every existing entry and adds exactly the
   * dates of the non-zero-close bars not yet present.
   */
  lemma {:induction false} AdmitNewKeys(m: map<Date, Bar>, newSeries: seq<Bar>, closeIsZero: Price -> bool)
    decreases |newSeries|
    ensures AdmitNew(m, newSeries, closeIsZero).Keys == m.Keys + AdmissibleDates(newSeries, closeIsZero)
    ensures forall d :: d in m ==> AdmitNew(m, newSeries, closeIsZero)[d] == m[d]
  {
    if newSeries != [] {
      AdmitNewKeys(m, newSeries[..|newSeries| - 1], closeIsZero);
      AdmissibleDatesSnoc(newSeries, closeIsZero);
    }
  }

  /**
   * For each date it adds, the admitting pass keeps the first bar of
   * newSeries with that date and a non-zero close.
   */
  lemma {:induction false} AdmitNewFirstWins(m: map<Date, Bar>, newSeries: seq<Bar>, closeIsZero: Price -> bool)
    decreases |newSeries|
    ensures forall i :: FirstAdmissible(newSeries, closeIsZero, i) && newSeries[i].date !in m ==>
      && newSeries[i].date in AdmitNew(m, newSeries, closeIsZero)
      && AdmitNew(m, newSeries, closeIsZero)[newSeries[i].date] == newSeries[i]
    ensures forall d :: d in AdmitNew(m, newSeries, closeIsZero) && d !in m ==>
      exists i :: FirstAdmissible(newSeries, closeIsZero, i) && newSeries[i].date == d
  {
    if newSeries != [] {
      var n := |newSeries| - 1;
      var prefix := newSeries[..n];
      var bar := newSeries[n];
      AdmitNewFirstWins(m, prefix, closeIsZero);
      AdmitNewKeys(m, prefix, closeIsZero);
      FirstAdmissiblePrefix(newSeries, closeIsZero, n);
      var before := AdmitNew(m, prefix, closeIsZero);
      var after := AdmitNew(m, newSeries, closeIsZero);
      if bar.date !in before && !closeIsZero(bar.close) {
        assert FirstAdmissible(newSeries, closeIsZero, n) by {
          forall j | 0 <= j < n && newSeries[j].date == bar.date ensures closeIsZero(newSeries[j].close) {
            assert prefix[j] == newSeries[j];
          }
        }
      }
      forall i | FirstAdmissible(newSeries, closeIsZero, i) && newSeries[i].date !in m
        ensures newSeries[i].date in after && after[newSeries[i].date] == newSeries[i]
      {
        if i < n {
          assert FirstAdmissible(prefix, closeIsZero, i);
        } else {
          assert newSeries[i].date !in AdmissibleDates(prefix, closeIsZero);
        }
      }
    }
  }

  /** The admitting pass maps each date it holds to a bar of that date. */
  lemma AdmitNewKeyedByDate(m: map<Date, Bar>, newSeries: seq<Bar>, closeIsZero: Price -> bool)
    requires KeyedByDate(m)
    ensures KeyedByDate(AdmitNew(m, newSeries, closeIsZero))
  {
    AdmitNewKeys(m, newSeries, closeIsZero);
    AdmitNewFirstWins(m, newSeries, closeIsZero);
    var admitted := AdmitNew(m, newSeries, closeIsZero);
    forall d | d in admitted ensures admitted[d].date == d {
      if d !in m {
        var i :| FirstAdmissible(newSeries, closeIsZero, i) && newSeries[i].date == d;
      }
    }
  }

  /** The sorted list holds exactly the map's bars. */
  lemma {:induction false} ByDateMembers(m: map<Date, Bar>)
    requires KeyedByDate(m)
    decreases |m.Keys|
    ensures forall b :: b in ByDate(m) <==> b.date in m && m[b.date] == b
  {
    if m.Keys != {} {
      var k := Least(m.Keys);
      var rest := m - {k};
      assert rest.Keys == m.Keys - {k};
      assert KeyedByDate(rest);
      ByDateMembers(rest);
      var r := ByDate(m);
      assert r == [m[k]] + ByDate(rest);
      forall b ensures b in r <==> b.date in m && m[b.date] == b {
        if b.date in m && b.date != k {
          assert b.date in rest && rest[b.date] == m[b.date];
        }
      }
    }
  }

  /** A bar dated before every bar of an ascending list can be put in front of it. */
  lemma PrependAscending(b: Bar, tail: seq<Bar>)
    requires StrictlyAscending(tail)
    requires forall x :: x in tail ==> b.date < x.date
    ensures StrictlyAscending([b] + tail)
  {
    var r := [b] + tail;
    forall i, j | 0 <= i < j < |r| ensures r[i].date < r[j].date {
      assert r[j] == tail[j - 1];
      if i > 0 {
        assert r[i] == tail[i - 1];
      } else {
        assert r[j] in tail;
      }
    }
  }

  /** The sorted list has strictly ascending dates. */
  lemma {:induction false} ByDateAscending(m: map<Date, Bar>)
    requires KeyedByDate(m)
    decreases |m.Keys|
    ensures StrictlyAscending(ByDate(m))
  {
    if m.Keys != {} {
      var k := Least(m.Keys);
      var rest := m - {k};
      assert rest.Keys == m.Keys - {k};
      assert KeyedByDate(rest);
      ByDateAscending(rest);
      LeastComesFirst(m, k, rest);
      PrependAscending(m[k], ByDate(rest));
    }
  }

  /** Every bar left after taking the least date is dated after that date's bar. */
  lemma LeastComesFirst(m: map<Date, Bar>, k: Date, rest: map<Date, Bar>)
    requires KeyedByDate(m) && m.Keys != {}
    requires k == Least(m.Keys) && rest == m - {k}
    ensures ByDate(m) == [m[k]] + ByDate(rest)
    ensures forall x :: x in ByDate(rest) ==> m[k].date < x.date
  {
    assert rest.Keys == m.Keys - {k};
    assert KeyedByDate(rest);
    ByDateMembers(rest);
    forall x | x in ByDate(rest) ensures m[k].date < x.date {
      assert x.date in rest;
    }
  }

  lemma FirstIsShared(a: seq<Bar>, b: seq<Bar>)
    requires forall x :: x in a <==> x in b
    ensures b != [] ==> b[0] in a
  {
    if b != [] {
      assert b[0] in b;
    }
  }

  /** Two lists with strictly ascending dates and the same bars are equal. */
  lemma {:induction false} AscendingUnique(a: seq<Bar>, b: seq<Bar>)
    requires StrictlyAscending(a) && StrictlyAscending(b)
    requires forall x :: x in a <==> x in b
    decreases |a|
    ensures a == b
  {
    if a != [] {
      assert a[0] in b;
      SameHeads(a, b);
      SameTails(a, b);
      AscendingUnique(a[1..], b[1..]);
      assert a == [a[0]] + a[1..];
      assert b == [b[0]] + b[1..];
    } else {
      FirstIsShared(a, b);
    }
  }

  /** Two ascending lists with the same bars start with the same bar. */
  lemma SameHeads(a: seq<Bar>, b: seq<Bar>)
    requires StrictlyAscending(a) && StrictlyAscending(b)
    requires forall x :: x in a <==> x in b
    requires a != [] && b != []
    ensures a[0] == b[0]
  {
    assert b[0] in a;
    assert a[0] in b;
    var i :| 0 <= i < |a| && a[i] == b[0];
    var j :| 0 <= j < |b| && b[j] == a[0];
    assert a[0].date <= b[0].date;
    assert j == 0;
  }

  /** Two ascending lists with the same bars and the same first bar have the same bars after it. */
  lemma SameTails(a: seq<Bar>, b: seq<Bar>)
    requires StrictlyAscending(a) && StrictlyAscending(b)
    requires forall x :: x in a <==> x in b
    requires a != [] && b != [] && a[0] == b[0]
    ensures forall x :: x in a[1..] <==> x in b[1..]
  {
    forall x ensures x in a[1..] ==> x in b[1..] {
      if x in a[1..] {
        var p :| 1 <= p < |a| && a[p] == x;
        assert x in b;
        var q :| 0 <= q < |b| && b[q] == x;
        assert q != 0;
        assert b[1..][q - 1] == x;
      }
    }
    forall x ensures x in b[1..] ==> x in a[1..] {
      if x in b[1..] {
        var q :| 1 <= q < |b| && b[q] == x;
        assert x in a;
        var p :| 0 <= p < |a| && a[p] == x;
        assert p != 0;
        assert a[1..][p - 1] == x;
      }
    }
  }

  /**
   * The merged history is sorted ascending with one bar per date, and its
   * dates are those of original together with the dates of newSeries bars
   * whose close is not zero.
   */
  lemma MergedHistoryShape(original: seq<Bar>, newSeries: seq<Bar>, closeIsZero: Price -> bool)
    requires !HasDuplicateDates(original)
    ensures MergedHistory(Some(original), Some(newSeries), closeIsZero).Some?
    ensures StrictlyAscending(MergedHistory(Some(original), Some(newSeries), closeIsZero).value)
    ensures DatesOf(MergedHistory(Some(original), Some(newSeries), closeIsZero).value) ==
            DatesOf(original) + AdmissibleDates(newSeries, closeIsZero)
  {
    ToDateMapContents(original);
    ToDateMapFailsOnDuplicate(original);
    var dates := ToDateMap(original).value;
    AdmitNewKeys(dates, newSeries, closeIsZero);
    AdmitNewFirstWins(dates, newSeries, closeIsZero);
    AdmitNewKeyedByDate(dates, newSeries, closeIsZero);
    var admitted := AdmitNew(dates, newSeries, closeIsZero);
    ByDateMembers(admitted);
    ByDateAscending(admitted);
    var r := ByDate(admitted);
    forall d | d in admitted ensures d in DatesOf(r) {
      assert admitted[d] in r;
    }
  }

  /** Every bar of original is in the merged history. */
  lemma MergeContainsOriginal(original: seq<Bar>, newSeries: seq<Bar>, closeIsZero: Price -> bool)
    requires !HasDuplicateDates(original)
    ensures MergedHistory(Some(original), Some(newSeries), closeIsZero).Some?
    ensures forall i :: 0 <= i < |original| ==>
      original[i] in MergedHistory(Some(original), Some(newSeries), closeIsZero).value
  {
    ToDateMapContents(original);
    ToDateMapFailsOnDuplicate(original);
    var dates := ToDateMap(original).value;
    AdmitNewKeys(dates, newSeries, closeIsZero);
    AdmitNewKeyedByDate(dates, newSeries, closeIsZero);
    var admitted := AdmitNew(dates, newSeries, closeIsZero);
    assert MergedHistory(Some(original), Some(newSeries), closeIsZero) == Some(ByDate(admitted));
    ByDateMembers(admitted);
  }

  /**
   * A bar of the merged history on a date of original is original's bar;
   * any other is the first non-zero-close bar of newSeries on its date.
   */
  lemma MergedBarOrigin(original: seq<Bar>, newSeries: seq<Bar>, closeIsZero: Price -> bool)
    requires !HasDuplicateDates(original)
    ensures MergedHistory(Some(original), Some(newSeries), closeIsZero).Some?
    ensures forall b :: b in MergedHistory(Some(original), Some(newSeries), closeIsZero).value ==>
      if b.date in DatesOf(original) then b in original
      else exists i :: FirstAdmissible(newSeries, closeIsZero, i) && newSeries[i] == b
  {
    ToDateMapContents(original);
    ToDateMapFailsOnDuplicate(original);
    var dates := ToDateMap(original).value;
    AdmitNewKeys(dates, newSeries, closeIsZero);
    AdmitNewFirstWins(dates, newSeries, closeIsZero);
    AdmitNewKeyedByDate(dates, newSeries, closeIsZero);
    var admitted := AdmitNew(dates, newSeries, closeIsZero);
    assert MergedHistory(Some(original), Some(newSeries), closeIsZero) == Some(ByDate(admitted));
    ByDateMembers(admitted);
    forall b | b in ByDate(admitted)
      ensures if b.date in DatesOf(original) then b in original
              else exists i :: FirstAdmissible(newSeries, closeIsZero, i) && newSeries[i] == b
    {
      if b.date in DatesOf(original) {
        var i :| 0 <= i < |original| && original[i].date == b.date;
        assert b == original[i];
      } else {
        var i :| FirstAdmissible(newSeries, closeIsZero, i) && newSeries[i].date == b.date;
        assert newSeries[i] == b;
      }
    }
  }

  /**
   * First wins among new bars: the first non-zero-close bar of newSeries on
   * a date original does not have is the one in the merged history.
   */
  lemma MergeFirstNewBarWins(original: seq<Bar>, newSeries: seq<Bar>, closeIsZero: Price -> bool, i: int)
    requires !HasDuplicateDates(original)
    requires FirstAdmissible(newSeries, closeIsZero, i) && newSeries[i].date !in DatesOf(original)
    ensures MergedHistory(Some(original), Some(newSeries), closeIsZero).Some?
    ensures newSeries[i] in MergedHistory(Some(original), Some(newSeries), closeIsZero).value
  {
    ToDateMapContents(original);
    ToDateMapFailsOnDuplicate(original);
    var dates := ToDateMap(original).value;
    AdmitNewKeys(dates, newSeries, closeIsZero);
    AdmitNewFirstWins(dates, newSeries, closeIsZero);
    AdmitNewKeyedByDate(dates, newSeries, closeIsZero);
    var admitted := AdmitNew(dates, newSeries, closeIsZero);
    ByDateMembers(admitted);
    ByDateAscending(admitted);
  }

  /** Merging a sorted, one-bar-per-date history with itself gives it back. */
  lemma MergeWithItselfIsIdentity(series: seq<Bar>, closeIsZero: Price -> bool)
    requires StrictlyAscending(series)
    ensures MergedHistory(Some(series), Some(series), closeIsZero) == Some(series)
  {
    ToDateMapContents(series);
    ToDateMapFailsOnDuplicate(series);
    var dates := ToDateMap(series).value;
    AdmitNewKeys(dates, series, closeIsZero);
    var admitted := AdmitNew(dates, series, closeIsZero);
    assert admitted == dates;
    ByDateMembers(dates);
    ByDateAscending(dates);
    forall b ensures b in series <==> b.date in dates && dates[b.date] == b {
      if b.date in dates {
        var i :| 0 <= i < |series| && series[i].date == b.date;
      }
    }
    AscendingUnique(ByDate(dates), series);
  }

  // ------------------------------------------------------------------
  // Series merge: the code
  // ------------------------------------------------------------------

  /** A date repeated in a prefix is repeated in the whole list. */
  lemma {:induction false} ToDateMapPrefixFails(bars: seq<Bar>, n: nat)
    requires n <= |bars| && ToDateMap(bars[..n]).None?
    decreases |bars| - n
    ensures ToDateMap(bars).None?
  {
    if n == |bars| {
      assert bars[..n] == bars;
    } else {
      var init := bars[..|bars| - 1];
      assert init[..n] == bars[..n];
      ToDateMapPrefixFails(init, n);
    }
  }

  /** Collectors.toMap over original: its bars by date, or None on a repeated date. */
  method CollectByDate(bars: seq<Bar>) returns (dates: Option<map<Date, Bar>>)
    ensures dates == ToDateMap(bars)
  {
    var collected: map<Date, Bar> := map[];
    var i := 0;
    while i < |bars|
      invariant 0 <= i <= |bars|
      invariant ToDateMap(bars[..i]) == Some(collected)
    {
      var bar := bars[i];
      assert bars[..i + 1][..i] == bars[..i];
      if bar.date in collected {
        ToDateMapPrefixFails(bars, i + 1);
        return None;
      }
      collected := collected[bar.date := bar];
      i := i + 1;
    }
    assert bars[..|bars|] == bars;
    return Some(collected);
  }

  /** The forEach over newSeries: puts each non-zero-close bar whose date is new. */
  method AdmitNewBars(dates: map<Date, Bar>, newSeries: seq<Bar>, closeIsZero: Price -> bool)
    returns (admitted: map<Date, Bar>)
    ensures admitted == AdmitNew(dates, newSeries, closeIsZero)
  {
    admitted := dates;
    var j := 0;
    while j < |newSeries|
      invariant 0 <= j <= |newSeries|
      invariant admitted == AdmitNew(dates, newSeries[..j], closeIsZero)
    {
      var bar := newSeries[j];
      assert newSeries[..j + 1][..j] == newSeries[..j];
      if bar.date !in admitted && !closeIsZero(bar.close) {
        admitted := admitted[bar.date := bar];
      }
      j := j + 1;
    }
    assert newSeries[..|newSeries|] == newSeries;
  }

  /**
   * The sort of the map's values by date, done by repeatedly taking the
   * bar of the earliest remaining date.
   */
  method SortByDate(dates: map<Date, Bar>) returns (sorted: seq<Bar>)
    ensures sorted == ByDate(dates)
  {
    sorted := [];
    var rest := dates;
    while rest.Keys != {}
      invariant sorted + ByDate(rest) == ByDate(dates)
      decreases |rest.Keys|
    {
      ghost var least := Least(rest.Keys);
      assert IsEarliestDate(rest, least);
      var k :| IsEarliestDate(rest, k);
      EarliestUnique(rest, k, least);
      sorted := sorted + [rest[k]];
      assert (rest - {k}).Keys == rest.Keys - {k};
      rest := rest - {k};
    }
  }

  /**
   * mergeSeries(stock, original, newSeries): writes the merged history into
   * the stock; ok is false when the code throws, and then the stock keeps
   * its history. The two lists are values here, so they cannot change.
   */
  method MergeSeries(stock: StockV1, original: History, newSeries: History, closeIsZero: Price -> bool)
    returns (ok: bool)
    modifies stock
    ensures ok <==> MergedHistory(original, newSeries, closeIsZero).Some?
    ensures ok ==> stock.history == Some(MergedHistory(original, newSeries, closeIsZero).value)
    ensures !ok ==> stock.history == old(stock.history)
    ensures stock.quote == old(stock.quote)
  {
    if original.None? {
      return false;
    }
    var dates := CollectByDate(original.value);
    if dates.None? || newSeries.None? {
      return false;
    }
    var admitted := AdmitNewBars(dates.value, newSeries.value, closeIsZero);
    var sorted := SortByDate(admitted);
    stock.history := Some(sorted);
    return true;
  }

  /**
   * mergeSeries(stock, original): merges original with the stock's own
   * history, as newSeries, and writes the result into the stock.
   */
  method MergeIntoOwnHistory(stock: StockV1, original: History, closeIsZero: Price -> bool)
    returns (ok: bool)
    modifies stock
    ensures ok <==> MergedHistory(original, old(stock.history), closeIsZero).Some?
    ensures ok ==> stock.history == Some(MergedHistory(original, old(stock.history), closeIsZero).value)
    ensures !ok ==> stock.history == old(stock.history)
    ensures stock.quote == old(stock.quote)
  {
    ok := MergeSeries(stock, original, stock.history, closeIsZero);
  }
}
