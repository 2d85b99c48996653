# Stock market view: dates, series merging and feed acquisition

A Dafny model of the date-and-series bookkeeping behind the stockmarketview
stock feed. It covers four Java classes.

- **DateUtils** (`date_utils.dfy`):
  - stepping back over weekends (`getLastWeekday` and `getPreviousDate`);
  - the forward and the new-to-old weekday iterators;
  - the dividend-date format classifier;
  - the year guess for dividend dates that parse to 1970;
  - the memo cache of `parseDate`.
- **AbstractStockFeed** (`abstract_stock_feed.dfy`):
  - `mergeSeries`, which keys one bar list by date, admits bars of a second list on new dates only, sorts by date and overwrites the stock's history;
  - `addQuoteToSeries` and `createStock`, which derive the headline quote from the last bar;
  - the clean-then-interpolate `get`.
- **IntelligentStockFeed** (`intelligent_stock_feed.dfy`):
  - `get`, which normalises the range to weekdays, answers CASH with a flat series, reads the cache, decides whether and over which range to fetch web data, merges and stores it, adds today's quote, and turns every exception into an empty result;
  - `getDataIfFeedAvailable`, `isAvailable`, `addLatestQuoteToTheSeries`, the cash seed bar and the `refresh` flag.
- **TimeseriesUtils** (`timeseries_utils.dfy`):
  - the newest-first comparator and the in-place sort;
  - the first and last quote of a list;
  - `ifNull` and the quote-to-tick conversion loop of `getTimeSeries`;
  - the reverse index iterator of `getTimeSeriesIterator`.

`stocks.dfy` holds the shared values: instruments, bars, the headline
quote, and the `StockV1` holder class. `wrappers.dfy` holds `Option`.

Dates are integer day numbers counted from 1970-01-01, which was a
Thursday. `DayOfWeek(d) = (d + 3) % 7`, with Monday as 0.

Prices are exact reals.

A Java `null` list is `None`. An exception is a failure value. For
`Optional<StockV1>` results this is the `Reply` type: `Failed`, `Absent` or
`Present(history)`.

Code whose source is not part of this model becomes function-valued fields
of a `Collaborators` value. Each is called on exactly what the Java passes
it: `cleanUpSeries`, for instance, is called on the `Optional` even when it
is empty. Two groups are treated differently:
- these can throw, and each gives a failure value (an `Option`, a `Reply` or a `false`) that `get` turns into an empty result:
  - the data feeds' `get`;
  - `getMissingDataPoints`, `storeSeries`, `cleanUpSeries` and `interpolateAndSortSeries`;
  - `FlatLineInterpolator.extendToFromDate`;
  - the quote feed;
- these are taken never to throw (see "## Left out"):
  - the feeds' `isAvailable`;
  - the `List<Bar>` `getMostRecentQuote`;
  - the zero-close test of `mergeSeries`.

The model follows the code in `get` with live data. The live history is
passed to `mergeSeries` as `original`, so live bars win every date they
have. The merged list is written into the cached stock object, and the live
stock is the one stored, quoted and returned. `AcquireLiveDataWins` states
this.

`IntelligentStockFeed.get` is specified by the function `Acquire`. The
method `Get` walks through the same steps with `StockV1` objects and is
proved to agree with it. `Acquire` also records what `storeSeries` received
and what `mergeSeries` wrote into the cached stock.

## Model

| member | source | states |
|---|---|---|
| DateUtils.PreviousDate | timeseries-source-and-analysis/src/main/java/com/leonarduk/finance/utils/DateUtils.java:144-147 | the latest weekday strictly before d: below d and at most three days back, a weekday, with only weekend days strictly between; it is d - 1 when that is a weekday |
| DateUtils.LastWeekday | timeseries-source-and-analysis/src/main/java/com/leonarduk/finance/utils/DateUtils.java:149-154 | a weekday is returned unchanged, Saturday becomes d - 1 and Sunday d - 2; the result is a weekday at most two days back with only weekend days after it up to d |
| DateUtils.LastWeekdayIdempotent | timeseries-source-and-analysis/src/main/java/com/leonarduk/finance/utils/DateUtils.java:149-154 | applying getLastWeekday twice gives the same day as once |
| DateUtils.LastWeekdayIsLatest | timeseries-source-and-analysis/src/main/java/com/leonarduk/finance/utils/DateUtils.java:149-154 | every weekday on or before d is on or before getLastWeekday(d) |
| DateUtils.LastWeekdayMonotonic | timeseries-source-and-analysis/src/main/java/com/leonarduk/finance/utils/DateUtils.java:149-154 | getLastWeekday preserves the order of days |
| DateUtils.AscendingRunStrictlyIncreasing | timeseries-source-and-analysis/src/main/java/com/leonarduk/finance/utils/DateUtils.java:92-114 | the forward iterator yields days within [oldest, mostRecent], strictly increasing |
| DateUtils.AscendingRunMembers | timeseries-source-and-analysis/src/main/java/com/leonarduk/finance/utils/DateUtils.java:92-114 | the forward iterator yields exactly the weekdays in [oldest, mostRecent], plus a weekend start day itself and the Sunday after a Saturday start, because the skip fires only after a Friday |
| DateUtils.WeekdayStartYieldsExactlyWeekdays | timeseries-source-and-analysis/src/main/java/com/leonarduk/finance/utils/DateUtils.java:92-114 | started on a weekday, the forward iterator yields exactly the weekdays in [oldest, mostRecent] |
| DateUtils.WeekdayIterator.constructor | timeseries-source-and-analysis/src/main/java/com/leonarduk/finance/utils/DateUtils.java:92-95 | the cursor starts at oldestDate, and the days left to yield are the ascending run |
| DateUtils.WeekdayIterator.HasNext | timeseries-source-and-analysis/src/main/java/com/leonarduk/finance/utils/DateUtils.java:97-100 | there is a next day exactly when days are left to yield |
| DateUtils.WeekdayIterator.Next | timeseries-source-and-analysis/src/main/java/com/leonarduk/finance/utils/DateUtils.java:102-110 | returns the cursor and advances it one day, or three after a Friday; what is yielded is the head of the remaining run |
| DateUtils.SkipWeekendBackIsLastWeekday | timeseries-source-and-analysis/src/main/java/com/leonarduk/finance/utils/DateUtils.java:129-134 | the Sunday and Saturday moves in next() amount to getLastWeekday |
| DateUtils.DescendingRunShape | timeseries-source-and-analysis/src/main/java/com/leonarduk/finance/utils/DateUtils.java:116-142 | the new-to-old iterator yields weekdays, strictly decreasing, none after the start and none more than two days before lastDate |
| DateUtils.DescendingRunMembers | timeseries-source-and-analysis/src/main/java/com/leonarduk/finance/utils/DateUtils.java:116-142 | the new-to-old iterator yields, when start is not before lastDate, exactly the weekdays from getLastWeekday(lastDate) up to start, and otherwise nothing |
| DateUtils.NewToOldIterator.constructor | timeseries-source-and-analysis/src/main/java/com/leonarduk/finance/utils/DateUtils.java:116-120 | the cursor starts at startDate, and the days left are the descending run |
| DateUtils.NewToOldIterator.HasNext | timeseries-source-and-analysis/src/main/java/com/leonarduk/finance/utils/DateUtils.java:122-125 | there is a next day exactly while the cursor is not before lastDate |
| DateUtils.NewToOldIterator.Next | timeseries-source-and-analysis/src/main/java/com/leonarduk/finance/utils/DateUtils.java:127-138 | moves a weekend cursor back to Friday, returns it and steps back one day; what is yielded is the head of the remaining run |
| DateUtils.DividendShapesDisjoint | timeseries-source-and-analysis/src/main/java/com/leonarduk/finance/utils/DateUtils.java:80-90 | no string has two of the three dividend-date shapes, so the first match alone decides |
| DateUtils.DividendDateFormat | timeseries-source-and-analysis/src/main/java/com/leonarduk/finance/utils/DateUtils.java:80-90 | "dd-MMM-yy" exactly for the two-digit-day shape, "d-MMM-yy" for the one-digit-day shape, "MMM d" for three characters then spaces then digits, "M/d/yy" for anything else |
| DateUtils.GuessDividendYear | timeseries-source-and-analysis/src/main/java/com/leonarduk/finance/utils/DateUtils.java:208-219 | a year other than 1970 is kept; 1970 becomes today's year minus one if the month difference exceeds 6, plus one if it is below -6, and today's year when it lies between -6 and 6, so it is within one of today's year |
| DateUtils.Memoised | timeseries-source-and-analysis/src/main/java/com/leonarduk/finance/utils/DateUtils.java:156-162 | one computeIfAbsent: a day comes back exactly when the string is cached or parses; a cached string gives its cached day; a day that comes back is recorded under the string; a failed parse leaves the map as it was |
| DateUtils.MemoisedOnlyGrows | timeseries-source-and-analysis/src/main/java/com/leonarduk/finance/utils/DateUtils.java:156-162 | the memo keeps every entry it had and adds at most the key asked for |
| DateUtils.MemoisedIsStable | timeseries-source-and-analysis/src/main/java/com/leonarduk/finance/utils/DateUtils.java:156-162 | once a string is cached, later lookups return the cached day and leave the map as it is, whatever the parser |
| DateUtils.DateCache.constructor | timeseries-source-and-analysis/src/main/java/com/leonarduk/finance/utils/DateUtils.java:157-159 | the memo starts empty |
| DateUtils.DateCache.ParseDate | timeseries-source-and-analysis/src/main/java/com/leonarduk/finance/utils/DateUtils.java:156-162 | a cached string returns its cached day and changes nothing; otherwise the parse is stored if it succeeds |
| AbstractStockFeed.TruncateTowardZero | timeseries-source-and-analysis/src/main/java/com/leonarduk/finance/stockfeed/AbstractStockFeed.java:27 | longValue of the volume drops the fraction toward zero |
| AbstractStockFeed.AddQuoteToSeries | timeseries-source-and-analysis/src/main/java/com/leonarduk/finance/stockfeed/AbstractStockFeed.java:21-32 | with a non-null, non-empty list the history is set and the quote is built from the last bar (price from close, dayHigh from max, dayLow from min, open, avgVolume from volume); otherwise the stock is untouched |
| AbstractStockFeed.CreateStock | timeseries-source-and-analysis/src/main/java/com/leonarduk/finance/stockfeed/AbstractStockFeed.java:38-43 | a new stock whose history is the list even when it is null, with the quote of its last bar, or no quote when there are no bars |
| AbstractStockFeed.CreateEmptyStock | timeseries-source-and-analysis/src/main/java/com/leonarduk/finance/stockfeed/AbstractStockFeed.java:34-36 | a new stock with a null history and no quote |
| AbstractStockFeed.CleanThenInterpolate | timeseries-source-and-analysis/src/main/java/com/leonarduk/finance/stockfeed/AbstractStockFeed.java:58-66 | a failed fetch fails; without cleanData the fetched stock goes straight to interpolateAndSortSeries; with cleanData, cleanUpSeries is called on the Optional even when it is empty, a failing cleanup fails the call, and otherwise interpolateAndSortSeries gets the cleaned history of a present stock, or the empty Optional |
| AbstractStockFeed.ToDateMapContents | timeseries-source-and-analysis/src/main/java/com/leonarduk/finance/stockfeed/AbstractStockFeed.java:80-81 | when keying by date succeeds, the keys are the bars' dates and each bar sits under its own date |
| AbstractStockFeed.ToDateMapFailsOnDuplicate | timeseries-source-and-analysis/src/main/java/com/leonarduk/finance/stockfeed/AbstractStockFeed.java:80-81 | keying by date fails exactly when two bars share a date |
| AbstractStockFeed.AdmitNewKeys | timeseries-source-and-analysis/src/main/java/com/leonarduk/finance/stockfeed/AbstractStockFeed.java:82-88 | the map gains exactly the dates of new-series bars whose close is not zero, and every entry already there is kept |
| AbstractStockFeed.AdmitNewFirstWins | timeseries-source-and-analysis/src/main/java/com/leonarduk/finance/stockfeed/AbstractStockFeed.java:82-88 | a newly admitted date holds the first bar of the new series with that date and a non-zero close |
| AbstractStockFeed.AdmitNewKeyedByDate | timeseries-source-and-analysis/src/main/java/com/leonarduk/finance/stockfeed/AbstractStockFeed.java:82-88 | admitting bars keeps every entry keyed by its own date |
| AbstractStockFeed.ByDateMembers | timeseries-source-and-analysis/src/main/java/com/leonarduk/finance/stockfeed/AbstractStockFeed.java:90-91 | the sorted list holds exactly the map's bars |
| AbstractStockFeed.ByDateAscending | timeseries-source-and-analysis/src/main/java/com/leonarduk/finance/stockfeed/AbstractStockFeed.java:90-91 | the sorted list's dates are strictly ascending |
| AbstractStockFeed.AscendingUnique | timeseries-source-and-analysis/src/main/java/com/leonarduk/finance/stockfeed/AbstractStockFeed.java:90-91 | two strictly ascending lists with the same bars are equal, so sorting the map determines the result |
| AbstractStockFeed.MergedHistoryShape | timeseries-source-and-analysis/src/main/java/com/leonarduk/finance/stockfeed/AbstractStockFeed.java:80-92 | the merged history is strictly ascending (one bar per date), and its dates are original's dates plus the dates of admitted new-series bars |
| AbstractStockFeed.MergeContainsOriginal | timeseries-source-and-analysis/src/main/java/com/leonarduk/finance/stockfeed/AbstractStockFeed.java:80-92 | every bar of original is in the merged history |
| AbstractStockFeed.MergedBarOrigin | timeseries-source-and-analysis/src/main/java/com/leonarduk/finance/stockfeed/AbstractStockFeed.java:80-92 | a merged bar on one of original's dates is original's bar; any other merged bar is the first admissible new-series bar of its date |
| AbstractStockFeed.MergedHistory | timeseries-source-and-analysis/src/main/java/com/leonarduk/finance/stockfeed/AbstractStockFeed.java:79-94 | the merge throws exactly when either list is null or original has two bars with one date |
| AbstractStockFeed.MergeFirstNewBarWins | timeseries-source-and-analysis/src/main/java/com/leonarduk/finance/stockfeed/AbstractStockFeed.java:82-88 | the first non-zero new-series bar of a date original lacks is in the merged history |
| AbstractStockFeed.MergeWithItselfIsIdentity | timeseries-source-and-analysis/src/main/java/com/leonarduk/finance/stockfeed/AbstractStockFeed.java:79-94 | merging a strictly ascending list with itself gives the same list |
| AbstractStockFeed.CollectByDate | timeseries-source-and-analysis/src/main/java/com/leonarduk/finance/stockfeed/AbstractStockFeed.java:80-81 | the loop that keys original by date computes the date map, failing on a repeated date |
| AbstractStockFeed.AdmitNewBars | timeseries-source-and-analysis/src/main/java/com/leonarduk/finance/stockfeed/AbstractStockFeed.java:82-88 | the forEach over the new series computes the admitted map |
| AbstractStockFeed.SortByDate | timeseries-source-and-analysis/src/main/java/com/leonarduk/finance/stockfeed/AbstractStockFeed.java:90-91 | the loop that repeatedly takes the earliest date computes the date-sorted list |
| AbstractStockFeed.MergeSeries | timeseries-source-and-analysis/src/main/java/com/leonarduk/finance/stockfeed/AbstractStockFeed.java:79-94 | the stock's history becomes the merged history and its quote is unchanged; on an exception (null list, duplicate date in original) the stock is unchanged |
| AbstractStockFeed.MergeIntoOwnHistory | timeseries-source-and-analysis/src/main/java/com/leonarduk/finance/stockfeed/AbstractStockFeed.java:74-77 | the two-argument overload merges the stock's own history in as the new series, leaving the quote as it was |
| IntelligentStockFeed.FeedSettings.constructor | finance-stockfeed/src/main/java/com/leonarduk/finance/stockfeed/IntelligentStockFeed.java:26 | refresh starts true |
| IntelligentStockFeed.FeedSettings.SetRefresh | finance-stockfeed/src/main/java/com/leonarduk/finance/stockfeed/IntelligentStockFeed.java:45-47 | refresh becomes the given value |
| IntelligentStockFeed.GetDataIfFeedAvailable | finance-stockfeed/src/main/java/com/leonarduk/finance/stockfeed/IntelligentStockFeed.java:159-173 | the feed is asked exactly when useFeed is set and it is available; otherwise the answer is empty |
| IntelligentStockFeed.PlanWebFetch | finance-stockfeed/src/main/java/com/leonarduk/finance/stockfeed/IntelligentStockFeed.java:113-129 | no fetch without refresh or an available feed (the instrument's or Google); with cached data, the first to last missing date before toDate's previous weekday, and no fetch when none is missing; without cached data, the whole range; a failure only when getMissingDataPoints throws |
| IntelligentStockFeed.WebFetchNeedsAvailableFeed | finance-stockfeed/src/main/java/com/leonarduk/finance/stockfeed/IntelligentStockFeed.java:180-185 | when none of MANUAL, Google and Yahoo is available, no web fetch is made for their instruments |
| IntelligentStockFeed.IsAvailable | finance-stockfeed/src/main/java/com/leonarduk/finance/stockfeed/IntelligentStockFeed.java:180-185 | available exactly when one of the MANUAL, Google and Yahoo feeds is |
| IntelligentStockFeed.CashSeedBar | finance-stockfeed/src/main/java/com/leonarduk/finance/stockfeed/IntelligentStockFeed.java:35-37 | the cash seed bar carries the instrument's code, is dated toDate, with every price 1, volume 0 and comment "Manually created" |
| IntelligentStockFeed.GetFlatCashSeries | finance-stockfeed/src/main/java/com/leonarduk/finance/stockfeed/IntelligentStockFeed.java:32-43 | a new stock whose history is the seed bar extended back to fromDate, quoted at price 1; nothing when the extension throws |
| IntelligentStockFeed.IndexOf | finance-stockfeed/src/main/java/com/leonarduk/finance/stockfeed/IntelligentStockFeed.java:59 | the position List.remove removes: the first index holding the bar |
| IntelligentStockFeed.RemoveFirst | finance-stockfeed/src/main/java/com/leonarduk/finance/stockfeed/IntelligentStockFeed.java:59 | List.remove drops the first occurrence when present and keeps the order of the others, and otherwise leaves the list as it is |
| IntelligentStockFeed.QuoteBar | finance-stockfeed/src/main/java/com/leonarduk/finance/stockfeed/IntelligentStockFeed.java:61-63 | today's bar carries the stock's instrument code and is dated on the quote's trade day; open is the quote's open, low its day low, high its day high, close and adjusted close its price, volume its volume, and the comment "Yahoo" |
| IntelligentStockFeed.WithLatestQuote | finance-stockfeed/src/main/java/com/leonarduk/finance/stockfeed/IntelligentStockFeed.java:49-70 | the update throws exactly with an available quote feed whose quote fails, or whose populated quote meets a null history |
| IntelligentStockFeed.LatestQuoteReplacesOrAppends | finance-stockfeed/src/main/java/com/leonarduk/finance/stockfeed/IntelligentStockFeed.java:49-70 | the history changes only with an available feed, a populated quote and a non-empty history; it then ends in today's bar, after the old history less its first occurrence of the most recent bar when that bar has the quote's date and the whole old history otherwise, and keeps its size exactly when the most recent bar has the quote's date and is in the list |
| IntelligentStockFeed.AddLatestQuoteToTheSeries | finance-stockfeed/src/main/java/com/leonarduk/finance/stockfeed/IntelligentStockFeed.java:49-70 | the stock's history is updated as above, the quote is untouched, and an exception (failing quote feed, null history) leaves the history as it was |
| IntelligentStockFeed.Finish | finance-stockfeed/src/main/java/com/leonarduk/finance/stockfeed/IntelligentStockFeed.java:145-146 | a failing cleanUpSeries gives no result; otherwise the result is there exactly when interpolateAndSortSeries of the cleaned history returns a stock, and it is that stock's history |
| IntelligentStockFeed.Acquire | finance-stockfeed/src/main/java/com/leonarduk/finance/stockfeed/IntelligentStockFeed.java:90-152 | a merge into the cached stock is always followed by storing the live data, and live data is stored only with refresh set, from the available feed of an instrument other than CASH |
| IntelligentStockFeed.AcquireNormalisesRange | finance-stockfeed/src/main/java/com/leonarduk/finance/stockfeed/IntelligentStockFeed.java:95-96 | get on a range behaves as get on the range with both ends moved back to weekdays |
| IntelligentStockFeed.AcquireCashIgnoresFeeds | finance-stockfeed/src/main/java/com/leonarduk/finance/stockfeed/IntelligentStockFeed.java:98-100 | CASH gets the flat series from the normalised range whatever the feeds, cache, store and refresh flag do, or the empty answer when the extension throws; nothing is stored or merged |
| IntelligentStockFeed.AcquireFallsBackToCache | finance-stockfeed/src/main/java/com/leonarduk/finance/stockfeed/IntelligentStockFeed.java:138-143 | without live data the cleaned and interpolated cached stock is the answer, or empty without a cached one, and nothing is stored or merged |
| IntelligentStockFeed.AcquireNeedsData | finance-stockfeed/src/main/java/com/leonarduk/finance/stockfeed/IntelligentStockFeed.java:131-143 | a non-empty answer for an instrument other than CASH needs cached or live data |
| IntelligentStockFeed.AcquireWithoutFeedsIsEmpty | finance-stockfeed/src/main/java/com/leonarduk/finance/stockfeed/IntelligentStockFeed.java:102-143 | with none of MANUAL, Google and Yahoo available, get is empty for their instruments and nothing is stored |
| IntelligentStockFeed.AcquireLiveDataWins | finance-stockfeed/src/main/java/com/leonarduk/finance/stockfeed/IntelligentStockFeed.java:131-146 | with live data and a merge that succeeds, the live history is stored, the cached stock receives exactly the merge of the live history with the cached one, and the answer is the live history with today's quote added, cleaned and interpolated, or empty when storeSeries or the quote update throws; the merge holds every live bar and takes every date the live data has from it |
| IntelligentStockFeed.AcquireFailureIsEmpty | finance-stockfeed/src/main/java/com/leonarduk/finance/stockfeed/IntelligentStockFeed.java:102-151 | a failing cache read, fetch plan or merge leaves the answer empty with nothing stored or merged; a throwing storeSeries or quote update leaves the answer empty |
| IntelligentStockFeed.FetchLive | finance-stockfeed/src/main/java/com/leonarduk/finance/stockfeed/IntelligentStockFeed.java:107-129 | the web data get obtains is the one the fetch plan calls for: nothing, a failure, or the instrument's feed over the planned range |
| IntelligentStockFeed.FinishStock | finance-stockfeed/src/main/java/com/leonarduk/finance/stockfeed/IntelligentStockFeed.java:145-146 | the answer exists exactly when cleaning and interpolating the stock's history succeed, and then it holds their result; the stock's history becomes the cleaned one when cleaning succeeds, and its quote is untouched |
| IntelligentStockFeed.Get | finance-stockfeed/src/main/java/com/leonarduk/finance/stockfeed/IntelligentStockFeed.java:90-152 | get's result, what it stores and what it merges into the cached stock are those of the specification, every exception giving an empty result |
| TimeseriesUtils.Compare | finance-stockfeed/src/main/java/com/leonarduk/finance/utils/TimeseriesUtils.java:31-36 | negative exactly when the first quote is later, zero on equal dates, positive when it is earlier: newest first |
| TimeseriesUtils.CompareIsTotalPreorder | finance-stockfeed/src/main/java/com/leonarduk/finance/utils/TimeseriesUtils.java:31-36 | the comparator's sign flips with its arguments and it is transitive |
| TimeseriesUtils.SortedMeansComparatorOrder | finance-stockfeed/src/main/java/com/leonarduk/finance/utils/TimeseriesUtils.java:114-117 | dates never increasing is the same as no pair out of the comparator's order |
| TimeseriesUtils.SortQuoteList | finance-stockfeed/src/main/java/com/leonarduk/finance/utils/TimeseriesUtils.java:114-117 | the list is sorted in place with non-increasing dates, is a permutation of its old contents, and is the list returned |
| TimeseriesUtils.InsertNewestFirst | finance-stockfeed/src/main/java/com/leonarduk/finance/utils/TimeseriesUtils.java:114-117 | one insertion step extends the sorted prefix by one quote, permuting the list and leaving the quotes after it in place |
| TimeseriesUtils.MostRecentQuote | finance-stockfeed/src/main/java/com/leonarduk/finance/utils/TimeseriesUtils.java:38-41 | the first quote of a non-empty list, which has the latest date when the list is sorted |
| TimeseriesUtils.OldestQuote | finance-stockfeed/src/main/java/com/leonarduk/finance/utils/TimeseriesUtils.java:43-46 | the last quote of a non-empty list, which has the earliest date when the list is sorted |
| TimeseriesUtils.IfNull | finance-stockfeed/src/main/java/com/leonarduk/finance/utils/TimeseriesUtils.java:107-112 | the first value unless it is null, else the second |
| TimeseriesUtils.QuoteToTick | finance-stockfeed/src/main/java/com/leonarduk/finance/utils/TimeseriesUtils.java:71-81 | no tick exactly when the close is null; otherwise open, high and low default to the close and volume to 0 |
| TimeseriesUtils.ConversionKeepsOrder | finance-stockfeed/src/main/java/com/leonarduk/finance/utils/TimeseriesUtils.java:65-81 | the ticks of newest-first quotes are newest first |
| TimeseriesUtils.ConvertQuotes | finance-stockfeed/src/main/java/com/leonarduk/finance/utils/TimeseriesUtils.java:68-86 | null exactly when some quote has a null close; otherwise exactly one tick per quote, in order |
| TimeseriesUtils.GetTimeSeries | finance-stockfeed/src/main/java/com/leonarduk/finance/utils/TimeseriesUtils.java:53-88 | a non-empty history is sorted and converted without consulting a feed, and a distinct fallback list is left as it was; otherwise an empty fetch gives null, a null fetched history throws, and a fetched history is sorted and converted; a null close gives null, else the interpolated series of the ticks |
| TimeseriesUtils.IndicesDownSpec | finance-stockfeed/src/main/java/com/leonarduk/finance/utils/TimeseriesUtils.java:90-105 | the iterator's indices run from end down to begin, each once, end - begin + 1 of them |
| TimeseriesUtils.TickIterator.constructor | finance-stockfeed/src/main/java/com/leonarduk/finance/utils/TimeseriesUtils.java:92 | the index starts at the series' end |
| TimeseriesUtils.TickIterator.HasNext | finance-stockfeed/src/main/java/com/leonarduk/finance/utils/TimeseriesUtils.java:95-97 | there is a next tick exactly while indices are left |
| TimeseriesUtils.TickIterator.Next | finance-stockfeed/src/main/java/com/leonarduk/finance/utils/TimeseriesUtils.java:100-102 | returns the tick at the index and decrements it; that index is the head of what was left |

## Left out

- Calendar, `Instant` and `ZoneId` conversions are left out. `parseDateTime` and the `SimpleDateFormat` parsing in `parseDividendDate` are left out too: they are library date parsing. The parsed month and year are inputs of `GuessDividendYear`, and the ISO parser is an input of `ParseDate`.
- `getDiffInWorkDays` and `daysBetween` are left out: they are library period arithmetic.
- The `ConcurrentMap` of `parseDate` is a plain map field, and the static `refresh` is a `FeedSettings` object passed to `get`. Concurrency is not modelled.
- Floating point is not modelled. `ensureIsDouble`, `doubleValue` and BigDecimal scale are all outside the model, and prices and tick values are exact reals.
- TruncateTowardZero: the 64-bit wrap-around of `longValue` is not modelled.
- The zero-close test of `mergeSeries` is an uninterpreted predicate. It is an `Object.equals` between a ta4j value and a `BigDecimal`, and no property depends on it.
- The null-date guard in `mergeSeries` is not modelled, because a bar's end time always has a date.
- Lists are values. When the Java shares one list object between two stocks or callers, the model does not capture that sharing. Where `get` updates the live stock's history in place, the model reassigns its history field.
- NewToOldIterator: the `ZonedDateTime` start and last dates are day numbers here, so their time of day and zone are taken to be the same. When they differ the Java can stop a day earlier: started on a Wednesday at 09:00 with the last date a Monday at 17:00, it yields Wednesday and Tuesday, and the model also yields Monday.
- DescendingRun: the same day-number simplification as `NewToOldIterator`.
- SortByDate: `LinkedList.sort` compares the bars' `ZonedDateTime` end times, and the model repeatedly takes the earliest calendar date instead. Both give the same order when the dates are distinct and all end times share one zone and time of day. The model assumes they do.
- SortQuoteList: the model sorts by insertion, where `Collections.sort` is a stable merge sort. The contract states sortedness and permutation but not stability under equal dates.
- The bodies of the collaborators are not part of this model. These are:
  - `StockFeedFactory`, the data and quote feeds, and `CachedStockFeed.storeSeries`;
  - `getMissingDataPoints`, `cleanUpSeries` and `interpolateAndSortSeries`;
  - `FlatLineInterpolator`, `LinearInterpolator` and the `List<Bar>` `getMostRecentQuote`;
  - ta4j's `TimeSeries` and `getTick`.

  Each is an uninterpreted function. A null feed from the factory, or a failed cast to `CachedStockFeed`, is not modelled.
- Being functions, the collaborators give one answer per argument throughout a call of `get`. The Java may ask the same question twice and get two answers, for example `isAvailable()` of the instrument's feed in the fetch decision and again in `getDataIfFeedAvailable`. The model does not capture answers that change between the two asks.
- Get: the answer is a new `StockV1` holding what `interpolateAndSortSeries` returned. It may be an existing object in the Java, and that identity is not modelled.
- AddLatestQuoteToTheSeries: the trade date is a field of the quote. The null last-trade-time conversion that would throw is not modelled.
- GetTimeSeries: the fallback fetch is `IntelligentStockFeed.get` over the whole range. It is passed in as its result, and a quote's date is never null.
- The feeds' `isAvailable`, the `List<Bar>` `getMostRecentQuote` and the zero-close test of `mergeSeries` are assumed never to throw. In the Java, a throw from one of them inside `get` would give the empty result, which the model never derives from them.
- `Cash` stands for `Instrument.CASH`. It is a chosen representative with code "CASH" and source MANUAL, since the enum's definition is not part of this model. `instrument == Cash` compares only these two fields, which `Instrument.equals` may not do.
- The `years`-based and `String`-date overloads are left out, because they only compute `LocalDate.now()` or parse strings.
- Logging is left out.
