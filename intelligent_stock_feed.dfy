/**
 * The feed that combines the local cache with the web feeds: it normalises
 * the requested range to weekdays, answers CASH with a flat series, reads
 * the cache, decides whether and over which range to fetch web data, merges
 * and stores what it fetched, adds today's quote, and cleans and
 * interpolates the result. Every failure becomes an empty result.
 */
module IntelligentStockFeed {
  import opened Wrappers
  import opened DateUtils
  import opened Stocks
  import opened AbstractStockFeed

  /** What a quote feed's getStockQuote gave: an exception, null, or a quote. */
  datatype QuoteReply =
    | QuoteFailed
    | NoQuote
    | Quote(populated: bool, tradeDate: Date, open: Price, dayLow: Price, dayHigh: Price,
            price: Price, volume: int)

  /** The quote feed StockFeedFactory.getQuoteFeed(Yahoo) returns. */
  datatype QuoteFeed = QuoteFeed(isAvailable: bool, stockQuote: Instrument -> QuoteReply)

  /**
   * Everything get consults and whose code is not part of this model:
   * - feedAvailable(s): whether StockFeedFactory.getDataFeed(s) is available;
   * - fetch(s, i, from, to): what that feed's get returns;
   * - missingDataPoints(h, from, to): getMissingDataPoints, None when it throws;
   * - storeSeries(h): false when the cache's storeSeries throws;
   * - quoteFeed: getQuoteFeed(Yahoo), None for null;
   * - mostRecentQuote: the List<Bar> getMostRecentQuote;
   * - extendToFromDate: FlatLineInterpolator.extendToFromDate, None when it throws;
   * - closeIsZero: whether a close equals BigDecimal.valueOf(0);
   * - helpers: cleanUpSeries and interpolateAndSortSeries.
   */
  datatype Collaborators = Collaborators(
    feedAvailable: Source -> bool,
    fetch: (Source, Instrument, Date, Date) -> Reply,
    missingDataPoints: (History, Date, Date) -> Option<seq<Date>>,
    storeSeries: History -> bool,
    quoteFeed: Option<QuoteFeed>,
    mostRecentQuote: seq<Bar> -> Bar,
    extendToFromDate: (seq<Bar>, Date) -> Option<seq<Bar>>,
    closeIsZero: Price -> bool,
    helpers: SeriesHelpers)

  // ------------------------------------------------------------------
  // The refresh flag
  // ------------------------------------------------------------------

  /** The static refresh flag, true until setRefresh changes it. */
  class FeedSettings {
    var refresh: bool

    constructor ()
      ensures refresh
    {
      refresh := true;
    }

    method SetRefresh(refresh: bool)
      modifies this
      ensures this.refresh == refresh
    {
      this.refresh := refresh;
    }
  }

  // ------------------------------------------------------------------
  // Feed availability
  // ------------------------------------------------------------------

  /**
   * getDataIfFeedAvailable: the feed is asked only when useFeed is set and
   * it is available; otherwise the answer is empty.
   */
  function GetDataIfFeedAvailable(c: Collaborators, source: Source, instrument: Instrument,
                                  fromDate: Date, toDate: Date, useFeed: bool): (r: Reply)
    ensures r != Absent ==> useFeed && c.feedAvailable(source)
    ensures useFeed && c.feedAvailable(source) ==> r == c.fetch(source, instrument, fromDate, toDate)
  {
    if useFeed && c.feedAvailable(source) then c.fetch(source, instrument, fromDate, toDate) else Absent
  }

  /** The feeds whose availability makes this feed available. */
  const NamedFeeds: set<Source> := {Manual, Google, Yahoo}

  /** isAvailable: some of the MANUAL, Google and Yahoo feeds is available. */
  predicate IsAvailable(c: Collaborators): (b: bool)
    ensures b <==> exists s :: s in NamedFeeds && c.feedAvailable(s)
  {
    if c.feedAvailable(Manual) then assert Manual in NamedFeeds; true
    else if c.feedAvailable(Google) then assert Google in NamedFeeds; true
    else c.feedAvailable(Yahoo)
  }

  /** get asks the web only with refresh set and the instrument's feed or Google available. */
  predicate WantsWebData(c: Collaborators, refresh: bool, instrument: Instrument) {
    refresh && (c.feedAvailable(instrument.source) || c.feedAvailable(Google))
  }

  /** Which web fetch get makes, given what the cache returned (Absent or Present). */
  datatype WebPlan = NoFetch | FetchRange(from: Date, to: Date) | PlanFailed

  /**
   * The fetch decision of get: nothing without refresh or an available
   * feed; with cached data, the span from the first to the last date
   * missing from it before toDate, and nothing if none is missing; without
   * cached data, the whole range.
   */
  function PlanWebFetch(c: Collaborators, refresh: bool, instrument: Instrument,
                        fromDate: Date, toDate: Date, cached: Reply): (p: WebPlan)
    ensures !WantsWebData(c, refresh, instrument) ==> p == NoFetch
    ensures WantsWebData(c, refresh, instrument) && !cached.Present? ==> p == FetchRange(fromDate, toDate)
    ensures p.FetchRange? && cached.Present? ==>
      var missing := c.missingDataPoints(cached.history, fromDate, PreviousDate(toDate));
      missing.Some? && missing.value != [] && p.from == missing.value[0] && p.to == missing.value[|missing.value| - 1]
    ensures p.PlanFailed? ==> cached.Present? && c.missingDataPoints(cached.history, fromDate, PreviousDate(toDate)).None?
    ensures p == NoFetch && WantsWebData(c, refresh, instrument) ==>
      cached.Present? && c.missingDataPoints(cached.history, fromDate, PreviousDate(toDate)) == Some([])
  {
    if !WantsWebData(c, refresh, instrument) then NoFetch
    else if cached.Present? then
      match c.missingDataPoints(cached.history, fromDate, PreviousDate(toDate))
      case None => PlanFailed
      case Some(missing) =>
        if missing == [] then NoFetch else FetchRange(missing[0], missing[|missing| - 1])
    else FetchRange(fromDate, toDate)
  }

  /** The web data get obtains under the plan; an exception while planning is a failure. */
  function LiveReply(c: Collaborators, refresh: bool, instrument: Instrument,
                     fromDate: Date, toDate: Date, cached: Reply): Reply
  {
    match PlanWebFetch(c, refresh, instrument, fromDate, toDate, cached)
    case NoFetch => Absent
    case PlanFailed => Failed
    case FetchRange(from, to) => GetDataIfFeedAvailable(c, instrument.source, instrument, from, to, refresh)
  }

  /** Web data is fetched only when one of the three named feeds is available, for instruments sourced from them. */
  lemma WebFetchNeedsAvailableFeed(c: Collaborators, refresh: bool, instrument: Instrument,
                                   fromDate: Date, toDate: Date, cached: Reply)
    requires instrument.source == Manual || instrument.source == Google || instrument.source == Yahoo
    requires !IsAvailable(c)
    ensures PlanWebFetch(c, refresh, instrument, fromDate, toDate, cached) == NoFetch
    ensures LiveReply(c, refresh, instrument, fromDate, toDate, cached) == Absent
  {
  }

  // ------------------------------------------------------------------
  // Cash
  // ------------------------------------------------------------------

  /** The one bar the flat cash series is grown from: the instrument's code, dated toDate, every price 1, volume 0. */
  function CashSeedBar(code: string, toDate: Date): (b: Bar)
    ensures b.code == code && b.date == toDate
    ensures b.open == b.low == b.high == b.close == b.adjClose == 1.0
    ensures b.volume == 0.0 && b.comment == "Manually created"
  {
    Bar(code, toDate, 1.0, 1.0, 1.0, 1.0, 1.0, 0.0, "Manually created")
  }

  /**
   * getFlatCashSeries: a new stock whose history is the seed bar extended
   * back to fromDate, quoted at price 1; None when the extension throws.
   */
  method GetFlatCashSeries(c: Collaborators, instrument: Instrument, fromDate: Date, toDate: Date)
    returns (cash: Option<StockV1>)
    ensures var extended := c.extendToFromDate([CashSeedBar(instrument.code, toDate)], fromDate);
      && (cash.Some? <==> extended.Some?)
      && (cash.Some? ==>
            && fresh(cash.value) && cash.value.instrument == instrument
            && cash.value.history == Some(extended.value)
            && cash.value.quote == Some(StockQuote(instrument, Some(1.0), None, None, None, None)))
  {
    var stock := new StockV1(instrument);
    var seed := [CashSeedBar(instrument.code, toDate)];
    var extended := c.extendToFromDate(seed, fromDate);
    if !extended.Some? {
      return None;
    }
    stock.history := Some(extended.value);
    stock.quote := Some(StockQuote(instrument, Some(1.0), None, None, None, None));
    return Some(stock);
  }

  // ------------------------------------------------------------------
  // Today's quote
  // ------------------------------------------------------------------

  /** List.indexOf: the position of the first occurrence of x. */
  function IndexOf(s: seq<Bar>, x: Bar): (k: int)
    requires x in s
    ensures 0 <= k < |s| && s[k] == x && x !in s[..k]
  {
    if s[0] == x then 0
    else
      assert x in s[1..] by {
        var i :| 0 <= i < |s| && s[i] == x;
        assert s[1..][i - 1] == x;
      }
      var k := IndexOf(s[1..], x);
      assert s[..k + 1] == [s[0]] + s[1..][..k];
      k + 1
  }

  /**
   * List.remove(Object): drops the first occurrence, if any, and keeps the
   * other elements in their order.
   */
  function RemoveFirst(s: seq<Bar>, x: Bar): (r: seq<Bar>)
    ensures x in s ==> r == s[..IndexOf(s, x)] + s[IndexOf(s, x) + 1..]
    ensures x in s ==> |r| == |s| - 1 && multiset(r) == multiset(s) - multiset{x}
    ensures x !in s ==> r == s
  {
    if x in s then
      var k := IndexOf(s, x);
      assert s == s[..k] + [x] + s[k + 1..];
      s[..k] + s[k + 1..]
    else s
  }

  /** The bar a populated quote becomes: the stock's instrument code, dated on the trade day, closed at the price. */
  function QuoteBar(code: string, q: QuoteReply): (b: Bar)
    requires q.Quote?
    ensures b.code == code && b.date == q.tradeDate && b.close == q.price && b.adjClose == q.price
    ensures b.open == q.open && b.low == q.dayLow && b.high == q.dayHigh
    ensures b.volume == q.volume as real && b.comment == "Yahoo"
  {
    Bar(code, q.tradeDate, q.open, q.dayLow, q.dayHigh, q.price, q.price, q.volume as real, "Yahoo")
  }

  /**
   * addLatestQuoteToTheSeries, as a value: the stock's new history, or None
   * when it throws (a failing quote feed, or a null history).
   */
  function WithLatestQuote(feed: Option<QuoteFeed>, mostRecentQuote: seq<Bar> -> Bar,
                           instrument: Instrument, history: History): (r: Option<History>)
    // It throws only on a failing quote feed, or on a populated quote for a null history.
    ensures r.None? <==>
      && feed.Some? && feed.value.isAvailable
      && var q := feed.value.stockQuote(instrument);
         q.QuoteFailed? || (q.Quote? && q.populated && history.None?)
  {
    if feed.None? || !feed.value.isAvailable then Some(history)
    else
      var q := feed.value.stockQuote(instrument);
      if q.QuoteFailed? then None
      else if q.NoQuote? || !q.populated then Some(history)
      else if history.None? then None
      else if history.value == [] then Some(history)
      else
        var recent := mostRecentQuote(history.value);
        var kept := if recent.date == q.tradeDate then RemoveFirst(history.value, recent) else history.value;
        Some(Some(kept + [QuoteBar(instrument.code, q)]))
  }

  /** The quote update applies only with an available feed, a populated quote and a non-empty history. */
  predicate QuoteApplies(feed: Option<QuoteFeed>, instrument: Instrument, history: History) {
    && feed.Some? && feed.value.isAvailable
    && var q := feed.value.stockQuote(instrument);
    && q.Quote? && q.populated
    && history.Some? && history.value != []
  }

  /**
   * Today's bar replaces the most recent bar if that has the quote's date
   * and is otherwise appended: the history grows by at most one bar, an
   * empty history stays empty, and when the update applies the last bar is
   * the quote's, after the old bars less at most one.
   */
  lemma LatestQuoteReplacesOrAppends(feed: Option<QuoteFeed>, mostRecentQuote: seq<Bar> -> Bar,
                                     instrument: Instrument, history: seq<Bar>)
    requires WithLatestQuote(feed, mostRecentQuote, instrument, Some(history)).Some?
    ensures var h := WithLatestQuote(feed, mostRecentQuote, instrument, Some(history)).value;
      && h.Some?
      && (history == [] ==> h.value == [])
      && (|h.value| == |history| || |h.value| == |history| + 1)
      && (!QuoteApplies(feed, instrument, Some(history)) ==> h.value == history)
      && (QuoteApplies(feed, instrument, Some(history)) ==>
            var q := feed.value.stockQuote(instrument);
            var recent := mostRecentQuote(history);
            && h.value[|h.value| - 1] == QuoteBar(instrument.code, q)
            && h.value[..|h.value| - 1] == (if recent.date == q.tradeDate then RemoveFirst(history, recent) else history)
            && multiset(h.value[..|h.value| - 1]) <= multiset(history)
            && (|h.value| == |history| <==> recent in history && recent.date == q.tradeDate))
  {
    if QuoteApplies(feed, instrument, Some(history)) {
      var q := feed.value.stockQuote(instrument);
      var recent := mostRecentQuote(history);
      var kept := if recent.date == q.tradeDate then RemoveFirst(history, recent) else history;
      var h := kept + [QuoteBar(instrument.code, q)];
      assert h[..|h| - 1] == kept;
    }
  }

  /**
   * addLatestQuoteToTheSeries: updates the stock's history in place; ok is
   * false when the code throws, and then the history is unchanged.
   */
  method AddLatestQuoteToTheSeries(stock: StockV1, feed: Option<QuoteFeed>, mostRecentQuote: seq<Bar> -> Bar)
    returns (ok: bool)
    modifies stock
    ensures ok <==> WithLatestQuote(feed, mostRecentQuote, stock.instrument, old(stock.history)).Some?
    ensures ok ==> stock.history == WithLatestQuote(feed, mostRecentQuote, stock.instrument, old(stock.history)).value
    ensures !ok ==> stock.history == old(stock.history)
    ensures stock.quote == old(stock.quote)
  {
    if feed.Some? && feed.value.isAvailable {
      var q := feed.value.stockQuote(stock.instrument);
      if q.QuoteFailed? {
        return false;
      }
      if q.Quote? && q.populated {
        if stock.history.None? {
          return false;
        }
        var history := stock.history.value;
        if history != [] {
          var recent := mostRecentQuote(history);
          if recent.date == q.tradeDate {
            history := RemoveFirst(history, recent);
          }
          history := history + [QuoteBar(stock.instrument.code, q)];
          stock.history := Some(history);
        }
      }
    }
    return true;
  }

  // ------------------------------------------------------------------
  // get(instrument, from, to, interpolate): specification
  // ------------------------------------------------------------------

  /**
   * The effect of one call of get: the history of the stock it returns
   * (None for Optional.empty()), the history it handed to storeSeries
   * (None if it did not store), and the history mergeSeries wrote into the
   * cached stock (None if it did not merge).
   */
  datatype Acquisition = Acquisition(result: Option<History>, stored: Option<History>,
                                     mergedIntoCache: Option<seq<Bar>>)

  /**
   * The end of get: clean the stock's history, then interpolate and sort
   * it; the answer is the history of the stock interpolateAndSortSeries
   * returns, and None when either throws or the Optional comes back empty.
   */
  function Finish(c: Collaborators, fromDate: Date, toDate: Date, interpolate: bool, history: History): (r: Option<History>)
    ensures c.helpers.cleanUpSeries(Some(history)).None? ==> r.None?
    ensures c.helpers.cleanUpSeries(Some(history)).Some? ==>
      var answer := c.helpers.interpolateAndSortSeries(fromDate, toDate, interpolate,
                                                       Some(c.helpers.cleanUpSeries(Some(history)).value));
      && (r.Some? <==> answer.Present?)
      && (r.Some? ==> r.value == answer.history)
  {
    match CleanThenInterpolate(Present(history), fromDate, toDate, interpolate, true, c.helpers)
    case Present(h) => Some(h)
    case _ => None
  }

  /**
   * get once live data is present: the live history is merged (as original)
   * into the cached stock, the live stock is stored, gets today's quote,
   * and is the one cleaned and returned.
   */
  ghost function WithLiveData(c: Collaborators, instrument: Instrument, fromDate: Date, toDate: Date,
                              interpolate: bool, cached: Reply, live: History): Acquisition
  {
    var merged := if cached.Present? then MergedHistory(live, cached.history, c.closeIsZero) else None;
    if cached.Present? && merged.None? then Acquisition(None, None, None)
    else if !c.storeSeries(live) then Acquisition(None, Some(live), merged)
    else match WithLatestQuote(c.quoteFeed, c.mostRecentQuote, instrument, live)
      case None => Acquisition(None, Some(live), merged)
      case Some(h) => Acquisition(Finish(c, fromDate, toDate, interpolate, h), Some(live), merged)
  }

  /** get(instrument, fromDateRaw, toDateRaw, interpolate) with the given refresh flag. */
  ghost function Acquire(c: Collaborators, refresh: bool, instrument: Instrument,
                         fromDateRaw: Date, toDateRaw: Date, interpolate: bool): (a: Acquisition)
    // A merge into the cached stock is always followed by storing the live data.
    ensures a.mergedIntoCache.Some? ==> a.stored.Some?
    // Live data comes only with refresh set, from the instrument's own available feed.
    ensures a.stored.Some? ==> instrument != Cash && refresh && c.feedAvailable(instrument.source)
  {
    var fromDate := LastWeekday(fromDateRaw);
    var toDate := LastWeekday(toDateRaw);
    if instrument == Cash then
      match c.extendToFromDate([CashSeedBar(instrument.code, toDate)], fromDate)
      case Some(extended) => Acquisition(Some(Some(extended)), None, None)
      case None => Acquisition(None, None, None)
    else
      var cached := GetDataIfFeedAvailable(c, Manual, instrument, fromDate, toDate, true);
      if cached.Failed? then Acquisition(None, None, None)
      else
        var live := LiveReply(c, refresh, instrument, fromDate, toDate, cached);
        if live.Failed? then Acquisition(None, None, None)
        else if live.Present? then WithLiveData(c, instrument, fromDate, toDate, interpolate, cached, live.history)
        else if cached.Present? then Acquisition(Finish(c, fromDate, toDate, interpolate, cached.history), None, None)
        else Acquisition(None, None, None)
  }

  // ------------------------------------------------------------------
  // get: properties
  // ------------------------------------------------------------------

  /** Both ends of the range are moved back to weekdays before anything else happens. */
  lemma AcquireNormalisesRange(c: Collaborators, refresh: bool, instrument: Instrument,
                               fromDateRaw: Date, toDateRaw: Date, interpolate: bool)
    ensures Acquire(c, refresh, instrument, fromDateRaw, toDateRaw, interpolate) ==
            Acquire(c, refresh, instrument, LastWeekday(fromDateRaw), LastWeekday(toDateRaw), interpolate)
  {
    LastWeekdayIdempotent(fromDateRaw);
    LastWeekdayIdempotent(toDateRaw);
  }

  /**
   * CASH is answered from the flat series alone: feeds, cache and store
   * make no difference, and nothing is stored or merged; a throwing
   * extension gives the empty answer.
   */
  lemma AcquireCashIgnoresFeeds(c: Collaborators, other: Collaborators, refresh: bool, otherRefresh: bool,
                                fromDateRaw: Date, toDateRaw: Date, interpolate: bool)
    requires other.extendToFromDate == c.extendToFromDate
    ensures Acquire(c, refresh, Cash, fromDateRaw, toDateRaw, interpolate) ==
            Acquire(other, otherRefresh, Cash, fromDateRaw, toDateRaw, interpolate)
    ensures var extended := c.extendToFromDate([CashSeedBar(Cash.code, LastWeekday(toDateRaw))], LastWeekday(fromDateRaw));
      Acquire(c, refresh, Cash, fromDateRaw, toDateRaw, interpolate) ==
      if extended.Some? then Acquisition(Some(Some(extended.value)), None, None) else Acquisition(None, None, None)
  {
  }

  /**
   * Without live data the cached stock is the answer, and nothing is
   * stored or merged; with neither, the answer is empty.
   */
  lemma AcquireFallsBackToCache(c: Collaborators, refresh: bool, instrument: Instrument,
                                fromDateRaw: Date, toDateRaw: Date, interpolate: bool)
    requires instrument != Cash
    ensures var fromDate, toDate := LastWeekday(fromDateRaw), LastWeekday(toDateRaw);
      var cached := GetDataIfFeedAvailable(c, Manual, instrument, fromDate, toDate, true);
      var a := Acquire(c, refresh, instrument, fromDateRaw, toDateRaw, interpolate);
      LiveReply(c, refresh, instrument, fromDate, toDate, cached) == Absent ==>
        && a.stored == None && a.mergedIntoCache == None
        && (cached.Present? ==> a.result == Finish(c, fromDate, toDate, interpolate, cached.history))
        && (!cached.Present? ==> a.result == None)
  {
  }

  /** A non-empty answer for an instrument other than CASH needs cached or live data. */
  lemma AcquireNeedsData(c: Collaborators, refresh: bool, instrument: Instrument,
                         fromDateRaw: Date, toDateRaw: Date, interpolate: bool)
    requires instrument != Cash
    requires Acquire(c, refresh, instrument, fromDateRaw, toDateRaw, interpolate).result.Some?
    ensures var fromDate, toDate := LastWeekday(fromDateRaw), LastWeekday(toDateRaw);
      var cached := GetDataIfFeedAvailable(c, Manual, instrument, fromDate, toDate, true);
      cached.Present? || LiveReply(c, refresh, instrument, fromDate, toDate, cached).Present?
  {
  }

  /** With none of MANUAL, Google and Yahoo available, get finds nothing for their instruments. */
  lemma AcquireWithoutFeedsIsEmpty(c: Collaborators, refresh: bool, instrument: Instrument,
                                   fromDateRaw: Date, toDateRaw: Date, interpolate: bool)
    requires instrument != Cash && !IsAvailable(c)
    requires instrument.source == Manual || instrument.source == Google || instrument.source == Yahoo
    ensures Acquire(c, refresh, instrument, fromDateRaw, toDateRaw, interpolate) == Acquisition(None, None, None)
  {
  }

  /**
   * With live data and a merge that succeeds: the cached stock receives the
   * merge of the live history (which wins every date it has) with the
   * cached one, the live history is stored, and the answer is the live
   * history with today's quote added, cleaned and interpolated; it is empty
   * when storing or the quote update throws.
   */
  lemma AcquireLiveDataWins(c: Collaborators, refresh: bool, instrument: Instrument,
                            fromDateRaw: Date, toDateRaw: Date, interpolate: bool)
    requires instrument != Cash
    ensures var fromDate, toDate := LastWeekday(fromDateRaw), LastWeekday(toDateRaw);
      var cached := GetDataIfFeedAvailable(c, Manual, instrument, fromDate, toDate, true);
      var live := LiveReply(c, refresh, instrument, fromDate, toDate, cached);
      var a := Acquire(c, refresh, instrument, fromDateRaw, toDateRaw, interpolate);
      !cached.Failed? && live.Present? &&
      (cached.Present? ==> MergedHistory(live.history, cached.history, c.closeIsZero).Some?) ==>
        var quoted := WithLatestQuote(c.quoteFeed, c.mostRecentQuote, instrument, live.history);
        && a.stored == Some(live.history)
        && a.mergedIntoCache == (if cached.Present? then MergedHistory(live.history, cached.history, c.closeIsZero) else None)
        && a.result == (if c.storeSeries(live.history) && quoted.Some?
                        then Finish(c, fromDate, toDate, interpolate, quoted.value) else None)
    ensures var fromDate, toDate := LastWeekday(fromDateRaw), LastWeekday(toDateRaw);
      var cached := GetDataIfFeedAvailable(c, Manual, instrument, fromDate, toDate, true);
      var live := LiveReply(c, refresh, instrument, fromDate, toDate, cached);
      var a := Acquire(c, refresh, instrument, fromDateRaw, toDateRaw, interpolate);
      !cached.Failed? && (cached.Present? ==> cached.history.Some?) &&
      live.Present? && live.history.Some? && !HasDuplicateDates(live.history.value) ==>
        && a.stored == Some(live.history)
        && (cached.Present? ==>
              && a.mergedIntoCache.Some?
              && (forall i :: 0 <= i < |live.history.value| ==> live.history.value[i] in a.mergedIntoCache.value)
              && (forall b :: b in a.mergedIntoCache.value && b.date in DatesOf(live.history.value) ==>
                    b in live.history.value))
  {
    var fromDate, toDate := LastWeekday(fromDateRaw), LastWeekday(toDateRaw);
    var cached := GetDataIfFeedAvailable(c, Manual, instrument, fromDate, toDate, true);
    var live := LiveReply(c, refresh, instrument, fromDate, toDate, cached);
    if live.Present? && live.history.Some? && !HasDuplicateDates(live.history.value) && cached.Present? && cached.history.Some? {
      MergeContainsOriginal(live.history.value, cached.history.value, c.closeIsZero);
      MergedBarOrigin(live.history.value, cached.history.value, c.closeIsZero);
    }
  }

  /**
   * Every exception inside get empties the answer: a failing cache read or
   * fetch plan, or a failing merge, leaves nothing stored or merged; a
   * throwing storeSeries or quote update leaves the result empty.
   */
  lemma AcquireFailureIsEmpty(c: Collaborators, refresh: bool, instrument: Instrument,
                              fromDateRaw: Date, toDateRaw: Date, interpolate: bool)
    requires instrument != Cash
    ensures var fromDate, toDate := LastWeekday(fromDateRaw), LastWeekday(toDateRaw);
      var cached := GetDataIfFeedAvailable(c, Manual, instrument, fromDate, toDate, true);
      var live := LiveReply(c, refresh, instrument, fromDate, toDate, cached);
      var a := Acquire(c, refresh, instrument, fromDateRaw, toDateRaw, interpolate);
      cached.Failed? || live.Failed? ||
      (live.Present? && cached.Present? && MergedHistory(live.history, cached.history, c.closeIsZero).None?) ==>
        a == Acquisition(None, None, None)
    ensures var fromDate, toDate := LastWeekday(fromDateRaw), LastWeekday(toDateRaw);
      var cached := GetDataIfFeedAvailable(c, Manual, instrument, fromDate, toDate, true);
      var live := LiveReply(c, refresh, instrument, fromDate, toDate, cached);
      var a := Acquire(c, refresh, instrument, fromDateRaw, toDateRaw, interpolate);
      live.Present? &&
      (!c.storeSeries(live.history) || WithLatestQuote(c.quoteFeed, c.mostRecentQuote, instrument, live.history).None?) ==>
        a.result == None
  {
  }

  // ------------------------------------------------------------------
  // get: the code
  // ------------------------------------------------------------------

  /**
   * The web fetch of get: whether to fetch and over which range, decided
   * from the refresh flag, the feeds and the cached stock's missing dates.
   */
  method FetchLive(settings: FeedSettings, c: Collaborators, instrument: Instrument, fromDate: Date, toDate: Date,
                   cachedReply: Reply, cachedData: Option<StockV1>)
    returns (liveReply: Reply)
    requires cachedReply.Present? <==> cachedData.Some?
    requires cachedData.Some? ==> cachedData.value.history == cachedReply.history
    ensures liveReply == LiveReply(c, settings.refresh, instrument, fromDate, toDate, cachedReply)
  {
    liveReply := Absent;
    var getWebData := settings.refresh && (c.feedAvailable(instrument.source) || c.feedAvailable(Google));
    if getWebData {
      if cachedData.Some? {
        var missing := c.missingDataPoints(cachedData.value.history, fromDate, PreviousDate(toDate));
        if missing.None? {
          return Failed;
        }
        var missingDates := missing.value;
        if missingDates != [] {
          liveReply := GetDataIfFeedAvailable(c, instrument.source, instrument, missingDates[0],
                                              missingDates[|missingDates| - 1], settings.refresh);
        }
      } else {
        liveReply := GetDataIfFeedAvailable(c, instrument.source, instrument, fromDate, toDate, settings.refresh);
      }
    }
  }

  /** The end of get: cleans the stock's history in place, then interpolates and sorts it. */
  method FinishStock(c: Collaborators, stock: StockV1, fromDate: Date, toDate: Date, interpolate: bool)
    returns (result: Option<StockV1>)
    modifies stock
    ensures var f := Finish(c, fromDate, toDate, interpolate, old(stock.history));
      && (result.Some? <==> f.Some?)
      && (result.Some? ==> fresh(result.value) && Some(result.value.history) == f)
    ensures var cleaned := c.helpers.cleanUpSeries(Some(old(stock.history)));
      stock.history == if cleaned.Some? then cleaned.value else old(stock.history)
    ensures stock.quote == old(stock.quote)
  {
    var cleaned := c.helpers.cleanUpSeries(Some(stock.history));
    if !cleaned.Some? {
      return None;
    }
    stock.history := cleaned.value;
    var interpolated := c.helpers.interpolateAndSortSeries(fromDate, toDate, interpolate, Some(stock.history));
    if interpolated.Present? {
      var answer := new StockV1.WithHistory(stock.instrument, interpolated.history);
      result := Some(answer);
    } else {
      result := None;
    }
  }

  /**
   * get(instrument, fromDateRaw, toDateRaw, interpolate). The stocks the
   * feeds return and the one returned are objects; stored and
   * mergedIntoCache record what storeSeries and mergeSeries received.
   */
  method Get(settings: FeedSettings, c: Collaborators, instrument: Instrument,
             fromDateRaw: Date, toDateRaw: Date, interpolate: bool)
    returns (result: Option<StockV1>, ghost stored: Option<History>, ghost mergedIntoCache: Option<seq<Bar>>)
    ensures var a := Acquire(c, settings.refresh, instrument, fromDateRaw, toDateRaw, interpolate);
      && (result.Some? <==> a.result.Some?)
      && (result.Some? ==> fresh(result.value) && Some(result.value.history) == a.result)
      && stored == a.stored
      && mergedIntoCache == a.mergedIntoCache
  {
    stored, mergedIntoCache := None, None;
    // Ignore weekends.
    var fromDate := LastWeekday(fromDateRaw);
    var toDate := LastWeekday(toDateRaw);
    if instrument == Cash {
      var cash := GetFlatCashSeries(c, instrument, fromDate, toDate);
      return cash, None, None;
    }
    var cachedReply := GetDataIfFeedAvailable(c, Manual, instrument, fromDate, toDate, true);
    if cachedReply.Failed? {
      return None, None, None;
    }
    var cachedData: Option<StockV1> := None;
    if cachedReply.Present? {
      var cachedStock := new StockV1.WithHistory(instrument, cachedReply.history);
      cachedData := Some(cachedStock);
    }
    var liveReply := FetchLive(settings, c, instrument, fromDate, toDate, cachedReply, cachedData);
    if liveReply.Failed? {
      return None, None, None;
    }
    var liveData: StockV1;
    if liveReply.Present? {
      var stock := new StockV1.WithHistory(instrument, liveReply.history);
      if cachedData.Some? {
        var merged := MergeSeries(cachedData.value, stock.history, cachedData.value.history, c.closeIsZero);
        if !merged {
          return None, None, None;
        }
        mergedIntoCache := Some(cachedData.value.history.value);
      }
      stored := Some(stock.history);
      if !c.storeSeries(stock.history) {
        return None, stored, mergedIntoCache;
      }
      var quoted := AddLatestQuoteToTheSeries(stock, c.quoteFeed, c.mostRecentQuote);
      if !quoted {
        return None, stored, mergedIntoCache;
      }
      liveData := stock;
    } else if cachedData.Some? {
      liveData := cachedData.value;
    } else {
      return None, None, None;
    }
    result := FinishStock(c, liveData, fromDate, toDate, interpolate);
  }
}
