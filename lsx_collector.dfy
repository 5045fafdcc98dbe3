/**
 * The live-trade collector of `lsx_collector.py`: the trading-hours rule,
 * the choice of feeds `_get_trades` downloads, and the normalisation of
 * one CSV row into a `TradeData`.
 *
 * The list of non-trading days and the rows each feed returns are
 * parameters: downloading and parsing them is not part of this model.
 */
module LsxCollector {
  import opened Wrappers
  import opened Text
  import opened Calendar
  import opened Strptime
  import opened Collect

  const URL_YESTERDAY: string := "https://www.ls-x.de/_rpc/json/.lstc/instrument/list/lsxtradesyesterday"
  const URL_NOW: string := "https://www.ls-x.de/_rpc/json/.lstc/instrument/list/lsxtradestoday"

  /** Trading hours, local time: from 07:30 to 23:00, both ends included. */
  const OPENING: Time := Time(7, 30, 0, 0)
  const CLOSING: Time := Time(23, 0, 0, 0)

  /** Trading week days, as ISO week days: Monday to Friday. */
  const TRADING_WEEKDAYS: seq<int> := [1, 2, 3, 4, 5]

  /** The time of day of the reference point on the previous day. */
  const NOON: Time := Time(12, 0, 0, 0)

  // ---------------------------------------------------------------------
  // `_ts_in_working_hours`

  /** `_ts_in_working_hours(d)`, with the exchange's non-trading days passed in. */
  predicate InWorkingHours(d: DateTime, nonTradingDays: seq<Date>)
    requires ValidDateTime(d)
  {
    && IsoWeekday(d.date) in TRADING_WEEKDAYS
    && TimeLe(OPENING, d.time) && TimeLe(d.time, CLOSING)
    && d.date !in nonTradingDays
  }

  /**
   * A moment is in working hours exactly when it falls on Monday to
   * Friday, at 07:30 or later and at 23:00:00.000000 or earlier, on a day
   * that is not a non-trading day.
   */
  lemma InWorkingHoursIff(d: DateTime, nonTradingDays: seq<Date>)
    requires ValidDateTime(d)
    ensures InWorkingHours(d, nonTradingDays) <==>
      && 1 <= IsoWeekday(d.date) <= 5
      && (d.time.hour > 7 || (d.time.hour == 7 && d.time.minute >= 30))
      && (d.time.hour < 23 || (d.time.hour == 23 && d.time.minute == 0 && d.time.second == 0 && d.time.micro == 0))
      && d.date !in nonTradingDays
  {
  }

  /** On a non-trading day nothing is in working hours, whatever the time. */
  lemma NonTradingDayClosed(d: DateTime, nonTradingDays: seq<Date>)
    requires ValidDateTime(d) && d.date in nonTradingDays
    ensures !InWorkingHours(d, nonTradingDays)
  {
  }

  /** Saturdays and Sundays are never in working hours. */
  lemma WeekendClosed(d: DateTime, nonTradingDays: seq<Date>)
    requires ValidDateTime(d) && IsoWeekday(d.date) >= 6
    ensures !InWorkingHours(d, nonTradingDays)
  {
  }

  /** On an ordinary week day 23:30 is after closing and 15:30, eight hours earlier, is in working hours. */
  lemma EveningAndAfternoon(day: Date, nonTradingDays: seq<Date>)
    requires ValidDate(day) && IsoWeekday(day) <= 5 && day !in nonTradingDays
    ensures !InWorkingHours(DateTime(day, Time(23, 30, 0, 0)), nonTradingDays)
    ensures InWorkingHours(DateTime(day, Time(15, 30, 0, 0)), nonTradingDays)
  {
  }

  /** Both ends of the trading hours are inside them, the microsecond after closing is not. */
  lemma TradingHoursInclusive(day: Date, nonTradingDays: seq<Date>)
    requires ValidDate(day) && IsoWeekday(day) <= 5 && day !in nonTradingDays
    ensures InWorkingHours(DateTime(day, OPENING), nonTradingDays)
    ensures InWorkingHours(DateTime(day, CLOSING), nonTradingDays)
    ensures !InWorkingHours(DateTime(day, Time(23, 0, 0, 1)), nonTradingDays)
    ensures !InWorkingHours(DateTime(day, Time(7, 29, 59, 999999)), nonTradingDays)
  {
  }

  // ---------------------------------------------------------------------
  // The feeds `_get_trades` downloads

  /** The errors that end `_get_trades`. */
  datatype TradeError =
    | OverflowError  // the day before 0001-01-01
    | ValueError     // a timestamp, a price or a volume that does not parse

  /**
   * `datetime(rd.year, rd.month, rd.day, 12, 0) - timedelta(days=1)`: noon
   * on the previous calendar day, or OverflowError on the first date.
   */
  function ReferencePoint(now: DateTime): (r: Result<DateTime, TradeError>)
    requires ValidDateTime(now)
    ensures r.Err? <==> now.date == FIRST_DATE
    ensures r.Ok? ==> ValidDateTime(r.value) && r.value.time == NOON
    ensures r.Ok? ==> Ordinal(r.value.date) + 1 == Ordinal(now.date)
  {
    match PrevDay(now.date)
    case None => Err(OverflowError)
    case Some(p) =>
      PrevDayOrdinal(now.date);
      Ok(DateTime(p, NOON))
  }

  /** `urls`: yesterday's feed first when noon yesterday was in working hours, then today's. */
  function Urls(now: DateTime, nonTradingDays: seq<Date>): (r: Result<seq<string>, TradeError>)
    requires ValidDateTime(now)
  {
    match ReferencePoint(now)
    case Err(e) => Err(e)
    case Ok(pdwh) => Ok(if InWorkingHours(pdwh, nonTradingDays) then [URL_YESTERDAY, URL_NOW] else [URL_NOW])
  }

  /**
   * Today's feed is always fetched, and last; yesterday's is fetched, and
   * first, exactly when yesterday was a trading week day that is not a
   * non-trading day. Only the first date has no yesterday.
   */
  lemma UrlsChoice(now: DateTime, nonTradingDays: seq<Date>)
    requires ValidDateTime(now)
    ensures Urls(now, nonTradingDays).Err? <==> now.date == FIRST_DATE
    ensures Urls(now, nonTradingDays).Ok? ==>
      var urls := Urls(now, nonTradingDays).value;
      var yesterday := PrevDay(now.date).value;
      && 1 <= |urls| <= 2
      && urls[|urls| - 1] == URL_NOW
      && (|urls| == 2 <==> IsoWeekday(yesterday) <= 5 && yesterday !in nonTradingDays)
      && (|urls| == 2 ==> urls[0] == URL_YESTERDAY)
  {
    if now.date != FIRST_DATE {
      InWorkingHoursIff(ReferencePoint(now).value, nonTradingDays);
    }
  }

  /** On a Sunday or a Monday yesterday was not a trading day, so only today's feed is fetched. */
  lemma NoYesterdayAfterWeekend(now: DateTime, nonTradingDays: seq<Date>)
    requires ValidDateTime(now) && now.date != FIRST_DATE
    requires IsoWeekday(now.date) == 7 || IsoWeekday(now.date) == 1
    ensures Urls(now, nonTradingDays) == Ok([URL_NOW])
  {
    PrevDayWeekday(now.date);
    UrlsChoice(now, nonTradingDays);
  }

  // ---------------------------------------------------------------------
  // `TradeData.from_str`

  /** One row of a feed's CSV, by column name. */
  datatype FeedRow = FeedRow(isin: string, displayName: string, time: string, price: string, size: string)

  /** A trade; the price is kept as the normalised text handed to `float()`. */
  datatype TradeData = TradeData(isin: string, displayName: string, timestamp: DateTime, price: string, volume: int)

  /**
   * `TradeData.from_str`: both names stripped, the timestamp parsed with
   * `%Y-%m-%d %H:%M:%S.%f`, every `,` of the price turned into `.` and
   * the result read by `float()`, and the volume read by `int()`; the
   * arguments are converted in that order.
   */
  function FromStr(isin: string, displayName: string, timestamp: string, price: string, volume: string): (r: Result<TradeData, TradeError>)
  {
    match ParseFeedTimestamp(timestamp)
    case None => Err(ValueError)
    case Some(ts) =>
      var text := Replace(price, ',', '.');
      if !IsFloatText(text) then Err(ValueError)
      else
        match PyInt(volume)
        case None => Err(ValueError)
        case Some(n) => Ok(TradeData(Strip(isin), Strip(displayName), ts, text, n))
  }

  /**
   * A row converts exactly when its timestamp, its price and its volume parse. The
   * names come out without surrounding whitespace, the price has no comma
   * left and differs from the input only where a comma became a point.
   */
  lemma FromStrOk(isin: string, displayName: string, timestamp: string, price: string, volume: string)
    ensures FromStr(isin, displayName, timestamp, price, volume).Ok?
        <==> ParseFeedTimestamp(timestamp).Some? && IsFloatText(Replace(price, ',', '.')) && PyInt(volume).Some?
    ensures FromStr(isin, displayName, timestamp, price, volume).Ok? ==>
      var t := FromStr(isin, displayName, timestamp, price, volume).value;
      && t.timestamp == ParseFeedTimestamp(timestamp).value && ValidDateTime(t.timestamp)
      && t.volume == PyInt(volume).value
      && Strip(t.isin) == t.isin && Strip(t.displayName) == t.displayName
      && t.isin == Strip(isin) && t.displayName == Strip(displayName)
      && |t.price| == |price| && ',' !in t.price && IsFloatText(t.price)
      && forall k :: 0 <= k < |price| ==> (t.price[k] == price[k] || (price[k] == ',' && t.price[k] == '.'))
  {
    StripIdempotent(isin);
    StripIdempotent(displayName);
    ReplaceChar(price, ',', '.');
  }

  /** A row whose fields are already normalised comes back with the same names and price. */
  lemma FromStrNormalised(row: FeedRow)
    requires Strip(row.isin) == row.isin && Strip(row.displayName) == row.displayName && ',' !in row.price
    requires ParseFeedTimestamp(row.time).Some? && IsFloatText(row.price) && PyInt(row.size).Some?
    ensures FromRow(row).Ok?
    ensures FromRow(row).value.isin == row.isin && FromRow(row).value.displayName == row.displayName
    ensures FromRow(row).value.price == row.price
  {
    ReplaceAbsent(row.price, ',', '.');
    FromStrOk(row.isin, row.displayName, row.time, row.price, row.size);
  }

  /** A price that is not a number, such as `abc`, makes the row raise ValueError. */
  lemma FromStrWordPrice(isin: string, displayName: string, timestamp: string, volume: string)
    requires ParseFeedTimestamp(timestamp).Some?
    ensures FromStr(isin, displayName, timestamp, "abc", volume) == Err(ValueError)
  {
    ReplaceAbsent("abc", ',', '.');
    WordNotFloat();
    FromStrOk(isin, displayName, timestamp, "abc", volume);
  }

  /** `TradeData.from_str(r["isin"], r["displayName"], r["time"], r["price"], r["size"])`. */
  function FromRow(row: FeedRow): Result<TradeData, TradeError> {
    FromStr(row.isin, row.displayName, row.time, row.price, row.size)
  }

  // ---------------------------------------------------------------------
  // `_get_trades`

  /** The rows of the feeds `urls`, one feed after the other. */
  function FeedRows(urls: seq<string>, fetch: string -> seq<FeedRow>): seq<FeedRow> {
    if urls == [] then [] else FeedRows(urls[..|urls| - 1], fetch) + fetch(urls[|urls| - 1])
  }

  /**
   * The loop of `_get_trades`: each feed's rows converted by a list
   * comprehension, which raises before `extend` if any row fails.
   */
  function Collected(urls: seq<string>, fetch: string -> seq<FeedRow>): Result<seq<TradeData>, TradeError> {
    if urls == [] then Ok([])
    else
      match Collected(urls[..|urls| - 1], fetch)
      case Err(e) => Err(e)
      case Ok(trades) =>
        match MapAll(FromRow, fetch(urls[|urls| - 1]))
        case Err(e) => Err(e)
        case Ok(batch) => Ok(trades + batch)
  }

  /**
   * Extending feed by feed gives the same trades as converting all rows of
   * all feeds in one go: every row once, in feed order and then row order,
   * or the first failing row's exception.
   */
  lemma {:induction false} CollectedAllRows(urls: seq<string>, fetch: string -> seq<FeedRow>)
    ensures Collected(urls, fetch) == MapAll(FromRow, FeedRows(urls, fetch))
  {
    if urls != [] {
      var front := urls[..|urls| - 1];
      CollectedAllRows(front, fetch);
      MapAllAppend(FromRow, FeedRows(front, fetch), fetch(urls[|urls| - 1]));
    }
  }

  /** `_get_trades()` at the moment `now`: the feeds chosen for `now`, collected. */
  function Trades(now: DateTime, nonTradingDays: seq<Date>, fetch: string -> seq<FeedRow>): Result<seq<TradeData>, TradeError>
    requires ValidDateTime(now)
  {
    match Urls(now, nonTradingDays)
    case Err(e) => Err(e)
    case Ok(urls) => Collected(urls, fetch)
  }

  /**
   * What `_get_trades` returns: today's rows, preceded by yesterday's when
   * yesterday was a trading day, all converted; the trades appear exactly
   * when every row converts.
   */
  lemma TradesRows(now: DateTime, nonTradingDays: seq<Date>, fetch: string -> seq<FeedRow>)
    requires ValidDateTime(now) && now.date != FIRST_DATE
    ensures var yesterday := PrevDay(now.date).value;
      var rows := if IsoWeekday(yesterday) <= 5 && yesterday !in nonTradingDays
                  then fetch(URL_YESTERDAY) + fetch(URL_NOW) else fetch(URL_NOW);
      && Trades(now, nonTradingDays, fetch) == MapAll(FromRow, rows)
      && (Trades(now, nonTradingDays, fetch).Ok? <==> forall n :: 0 <= n < |rows| ==> FromRow(rows[n]).Ok?)
      && (Trades(now, nonTradingDays, fetch).Ok? ==> |Trades(now, nonTradingDays, fetch).value| == |rows|)
  {
    var yesterday := PrevDay(now.date).value;
    var open := IsoWeekday(yesterday) <= 5 && yesterday !in nonTradingDays;
    var rows := if open then fetch(URL_YESTERDAY) + fetch(URL_NOW) else fetch(URL_NOW);
    var urls := Urls(now, nonTradingDays).value;
    UrlsChoice(now, nonTradingDays);
    CollectedAllRows(urls, fetch);
    if open {
      assert urls == [URL_YESTERDAY, URL_NOW];
      BothFeedsRows(fetch);
    } else {
      assert urls == [URL_NOW];
      TodaysFeedRows(fetch);
    }
    assert Trades(now, nonTradingDays, fetch) == MapAll(FromRow, rows);
    MapAllOk(FromRow, rows);
  }

  /** The rows of yesterday's feed and then today's. */
  lemma BothFeedsRows(fetch: string -> seq<FeedRow>)
    ensures FeedRows([URL_YESTERDAY, URL_NOW], fetch) == fetch(URL_YESTERDAY) + fetch(URL_NOW)
  {
    assert [URL_YESTERDAY, URL_NOW][..1] == [URL_YESTERDAY];
    OneFeedRows(URL_YESTERDAY, fetch);
  }

  /** The rows of today's feed alone. */
  lemma TodaysFeedRows(fetch: string -> seq<FeedRow>)
    ensures FeedRows([URL_NOW], fetch) == fetch(URL_NOW)
  {
    OneFeedRows(URL_NOW, fetch);
  }

  /** A single feed contributes exactly its own rows. */
  lemma OneFeedRows(u: string, fetch: string -> seq<FeedRow>)
    ensures FeedRows([u], fetch) == fetch(u)
  {
    assert [u][..0] == [];
    assert [] + fetch(u) == fetch(u);
  }

  /** `_get_trades`: picks the feeds, then extends `trades` with each feed's converted rows. */
  method GetTrades(now: DateTime, nonTradingDays: seq<Date>, fetch: string -> seq<FeedRow>)
    returns (r: Result<seq<TradeData>, TradeError>)
    requires ValidDateTime(now)
    ensures r == Trades(now, nonTradingDays, fetch)
  {
    var trades: seq<TradeData> := [];
    var pdwh := ReferencePoint(now);
    if pdwh.Err? {
      return Err(pdwh.error);
    }
    var urls := if InWorkingHours(pdwh.value, nonTradingDays) then [URL_YESTERDAY, URL_NOW] else [URL_NOW];
    for p := 0 to |urls|
      invariant Collected(urls[..p], fetch) == Ok(trades)
    {
      assert urls[..p + 1][..p] == urls[..p];
      var batch := MapAll(FromRow, fetch(urls[p]));
      if batch.Err? {
        CollectedErrorStays(urls, fetch, p + 1);
        return Err(batch.error);
      }
      trades := trades + batch.value;
    }
    assert urls[..|urls|] == urls;
    return Ok(trades);
  }

  /** Once a feed fails, the later feeds are not read and `_get_trades` raises that exception. */
  lemma {:induction false} CollectedErrorStays(urls: seq<string>, fetch: string -> seq<FeedRow>, j: nat)
    requires j <= |urls| && Collected(urls[..j], fetch).Err?
    ensures Collected(urls, fetch) == Collected(urls[..j], fetch)
    decreases |urls| - j
  {
    if j < |urls| {
      assert urls[..j + 1][..j] == urls[..j];
      CollectedErrorStays(urls, fetch, j + 1);
    } else {
      assert urls[..j] == urls;
    }
  }
}
