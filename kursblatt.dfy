/**
 * The Kursblatt reader of `pdf_to_json.py`: a single-pass scanner over the
 * text lines of one PDF page that recognises date markers, trade rows and
 * share headers, and a page loop that threads the current share, the base
 * date and the detected number locale from page to page while filling one
 * dictionary of trade entries per document.
 *
 * A page is the list of lines `page.extractText().split("\n")` yields; the
 * PDF library itself is not part of this model.
 */
module Kursblatt {
  import opened Wrappers
  import opened Text
  import opened Calendar
  import opened Strptime
  import opened Dicts
  import opened JsonValues

  const SELL: int := 0
  const BUY: int := 1

  /**
   * One trade row `[datetime, volume, value, ordertype]`. The value is kept
   * as the text that `float()` receives after the locale handling.
   */
  datatype Entry = Entry(ts: DateTime, volume: int, value: string, orderType: int)

  /** The `shares` dictionary: `"NAME (ISIN)"` to the entries in scan order. */
  type Ledger = Dict<seq<Entry>>

  /**
   * What the scanner carries along: the current share name, the base date
   * and the locale flag `must_replace` (`None` until the first trade row).
   */
  datatype ScanState = ScanState(share: string, date: Date, mustReplace: Option<bool>)

  /** The exceptions that abandon a document. */
  datatype ScanError =
    | IndexError   // a look-ahead past the last line or past the start of a short token
    | DateError    // a "Datum:" marker whose date `strptime` refuses
    | TimeError    // a row whose time `strptime` refuses
    | PriceError   // a price that `float()` refuses
    | VolumeError  // a volume that `int()` refuses

  /** What one scanner step does: how far the cursor moves, the new state, the entry it records. */
  datatype Move = Move(advance: nat, state: ScanState, entry: Option<Entry>)

  /** The outcome of scanning: the state handed on and the filled dictionary. */
  datatype Scanned = Scanned(state: ScanState, ledger: Ledger)

  const DATE_MARKER: string := "Datum:"
  const NULL_VOLUME: string := "null"
  const NO_PRICE: string := "-"
  const FREIVERKEHR: string := "Freiverkehr"
  const REGULIERTER_MARKT: string := "Regulierter Markt"
  const IGNORED_TAGS: seq<string> := ["Kursblatt", "Uhrzeit", "Kauf", "Verkauf", "Volumen"]

  // ---------------------------------------------------------------------
  // Token classes

  /** A line longer than 6 characters that starts with `Datum:`. */
  predicate IsDateMarker(t: string) {
    |t| > 6 && t[..6] == DATE_MARKER
  }

  /** A date marker starts with a letter, so it never looks like a time. */
  lemma DateMarkerIsNotTime(t: string)
    requires IsDateMarker(t)
    ensures !IsTimeToken(t)
  {
    assert t[0] == t[..6][0] == 'D';
  }

  /** `re.match("[0-9]{2}:[0-9]{2}:[0-9]{2}", t)`: anchored at the start only. */
  predicate IsTimeToken(t: string) {
    && |t| >= 8
    && IsDigit(t[0]) && IsDigit(t[1]) && t[2] == ':'
    && IsDigit(t[3]) && IsDigit(t[4]) && t[5] == ':'
    && IsDigit(t[6]) && IsDigit(t[7])
  }

  /** The class `[0-9A-Z\-_,\.\t ]` of the share-name part of a header. */
  predicate NameChar(c: char) {
    IsDigit(c) || ('A' <= c <= 'Z') || c in "-_,.\t "
  }

  /** The class `[0-9A-Z]` of an ISIN. */
  predicate IsinChar(c: char) {
    IsDigit(c) || ('A' <= c <= 'Z')
  }

  /** `t` starts with `k >= 3` name characters, then `(`, 12 ISIN characters and `)`. */
  predicate IsShareHeaderAt(t: string, k: nat) {
    && 3 <= k && k + 14 <= |t|
    && (forall m :: 0 <= m < k ==> NameChar(t[m]))
    && t[k] == '('
    && (forall m :: k < m < k + 13 ==> IsinChar(t[m]))
    && t[k + 13] == ')'
  }

  /** `re.match("[0-9A-Z\-_,\.\t ]{3,}\([0-9A-Z]{12}\)", t)`. */
  predicate IsShareHeader(t: string) {
    exists k: nat | 3 <= k <= |t| - 14 :: IsShareHeaderAt(t, k)
  }

  // ---------------------------------------------------------------------
  // Numbers

  /**
   * `s.replace(".", "_").replace(",", ".").replace("_", ",")`: exchanges the
   * thousands and decimal separators of the German layout.
   */
  function SwapSeparators(s: string): (r: string)
    ensures |r| == |s|
  {
    Replace(Replace(Replace(s, '.', '_'), ',', '.'), '_', ',')
  }

  /** What the swap does to each character; an underscore becomes a comma too. */
  lemma SwapChar(s: string, k: nat)
    requires k < |s|
    ensures SwapSeparators(s)[k]
         == if s[k] == '.' || s[k] == '_' then ',' else if s[k] == ',' then '.' else s[k]
  {
  }

  /** Without underscores the swap is an involution. */
  lemma SwapInvolution(s: string)
    requires '_' !in s
    ensures SwapSeparators(SwapSeparators(s)) == s
  {
    var once := SwapSeparators(s);
    var twice := SwapSeparators(once);
    forall k | 0 <= k < |s|
      ensures twice[k] == s[k]
    {
      SwapChar(s, k);
      SwapChar(once, k);
    }
  }

  /** A numeric token as the `en_US` conversions see it: swapped when the locale flag is set. */
  function Localized(tok: string, swap: bool): string {
    if swap then SwapSeparators(tok) else tok
  }

  /** `locale.delocalize` under `en_US`: the thousands separator `,` is dropped. */
  function Delocalize(s: string): (r: string)
    ensures ',' !in r
  {
    Remove(s, ',')
  }

  /** `atoi(...)` of a volume token. */
  function ParseVolume(tok: string, swap: bool): Option<int> {
    PyInt(Delocalize(Localized(tok, swap)))
  }

  /** Under `en_US` a comma between digit strings groups thousands: `1,234` is 1234. */
  lemma VolumeUsGrouped(x: string, y: string)
    requires |x| > 0 && AllDigits(x) && |y| > 0 && AllDigits(y)
    ensures ParseVolume(x + "," + y, false) == Some(DigitsValue(x + y) as int)
  {
    assert ',' !in x && ',' !in y;
    DelocalizeGrouped(x, y);
    assert AllDigits(x + y) by {
      assert forall k :: 0 <= k < |x| + |y| ==> (x + y)[k] == if k < |x| then x[k] else y[k - |x|];
    }
    PyIntDigits(x + y);
  }

  /** Dropping the separator keeps what stands on either side of it, in order. */
  lemma DelocalizeGrouped(x: string, y: string)
    requires ',' !in x && ',' !in y
    ensures Delocalize(x + "," + y) == x + y
  {
    assert x + "," + y == x + [','] + y;
    RemoveAppend(x + [','], y, ',');
    RemoveAppend(x, [','], ',');
    RemoveOne(',', ',');
  }

  /** In German layout a point between digit strings groups thousands: `1.234` is 1234. */
  lemma VolumeDeGrouped(x: string, y: string)
    requires |x| > 0 && AllDigits(x) && |y| > 0 && AllDigits(y)
    ensures ParseVolume(x + "." + y, true) == Some(DigitsValue(x + y) as int)
  {
    var s := x + "." + y;
    var t := x + "," + y;
    forall k | 0 <= k < |s| ensures SwapSeparators(s)[k] == t[k] {
      SwapChar(s, k);
      if k < |x| { assert IsDigit(s[k]); } else if k > |x| { assert IsDigit(s[k]); }
    }
    assert SwapSeparators(s) == t;
    VolumeUsGrouped(x, y);
  }

  /** The text `atof(...)` hands to `float()` for a price token. */
  function PriceText(tok: string, swap: bool): string {
    Delocalize(Localized(tok, swap))
  }

  // ---------------------------------------------------------------------
  // One step of the scanner

  /** The entries every data row produces: a real timestamp to the second and a side. */
  predicate WellFormed(e: Entry) {
    ValidDateTime(e.ts) && e.ts.time.micro == 0 && (e.orderType == SELL || e.orderType == BUY)
  }

  /**
   * The token whose fourth-last character decides the locale: the one after
   * the `-` placeholder of a sell row, the buy price otherwise.
   */
  function LocaleProbe(data: seq<string>, i: nat): nat
    requires i + 2 < |data|
  {
    i + (if Strip(data[i + 2]) == NO_PRICE then 3 else 2)
  }

  /** The first trade row decides the locale: a `,` four from the end means German layout. */
  function DetectLocale(data: seq<string>, i: nat): (r: Result<bool, ScanError>)
    ensures r.Ok? ==> i + 2 < |data|
  {
    if i + 2 >= |data| then Err(IndexError)
    else
      var p := LocaleProbe(data, i);
      if p >= |data| || |data[p]| < 4 then Err(IndexError)
      else Ok(data[p][|data[p]| - 4] == ',')
  }

  /** A trade row at `i`, whose volume line is not `null`. */
  function DataRow(data: seq<string>, i: nat, st: ScanState): (r: Result<Move, ScanError>)
    requires i + 1 < |data| && IsTimeToken(data[i])
    ensures r.Ok? ==> r.value.advance == 4 && r.value.entry.Some?
    ensures r.Ok? ==> r.value.state == st.(mustReplace := r.value.state.mustReplace)
    ensures r.Ok? ==> r.value.state.mustReplace.Some?
    ensures r.Ok? && st.mustReplace.Some? ==> r.value.state == st
    ensures r.Ok? ==> r.value.entry.value.ts.date == st.date
    ensures r.Ok? && ValidDate(st.date) ==> WellFormed(r.value.entry.value)
    ensures r.Ok? ==> IsFloatText(r.value.entry.value.value)
    ensures r.Ok? && st.mustReplace.None? ==> DetectLocale(data, i) == Ok(r.value.state.mustReplace.value)
  {
    var decided := if st.mustReplace.Some? then Ok(st.mustReplace.value) else DetectLocale(data, i);
    if decided.Err? then Err(decided.error)
    else
      var swap := decided.value;
      var time := ParseHms(Strip(data[i]));
      if time.None? then Err(TimeError)
      else if i + 2 >= |data| then Err(IndexError)
      else
        var sell := data[i + 2] == NO_PRICE;
        if sell && i + 3 >= |data| then Err(IndexError)
        else
          var price := PriceText(if sell then data[i + 3] else data[i + 2], swap);
          if !IsFloatText(price) then Err(PriceError)
          else
            var volume := ParseVolume(data[i + 1], swap);
            if volume.None? then Err(VolumeError)
            else
              var entry := Entry(DateTime(st.date, time.value), volume.value, price, if sell then SELL else BUY);
              Ok(Move(4, st.(mustReplace := Some(swap)), Some(entry)))
  }

  /**
   * One turn of the `while i < len(data)` loop: the first of the six
   * branches whose test holds decides the step. Reading the line at a
   * cursor past the end is an IndexError, as in Python.
   */
  function Step(data: seq<string>, i: nat, st: ScanState): (r: Result<Move, ScanError>)
    ensures r.Ok? ==> i < |data| && r.value.advance in {1, 2, 4}
    ensures r.Ok? ==> (r.value.advance == 4 <==> IsTimeToken(data[i]))
    ensures r.Ok? && r.value.entry.Some? ==>
              && IsTimeToken(data[i])
              && r.value.state.mustReplace.Some?
              && r.value.entry.value.ts.date == st.date
              && (ValidDate(st.date) ==> WellFormed(r.value.entry.value))
    ensures r.Ok? && st.mustReplace.Some? ==> r.value.state.mustReplace == st.mustReplace
    ensures r.Ok? && r.value.state.mustReplace != st.mustReplace ==> r.value.entry.Some?
    ensures r.Ok? && r.value.state.date != st.date ==> IsDateMarker(data[i])
    ensures r.Ok? && ValidDate(st.date) ==> ValidDate(r.value.state.date)
  {
    if i >= |data| then Err(IndexError)
    else
    var t := data[i];
    if IsDateMarker(t) then
      DateMarkerIsNotTime(t);
      match ParseDmy(Strip(t[6..]))
      case None => Err(DateError)
      case Some(d) => Ok(Move(1, st.(date := d), None))
    else if IsTimeToken(t) then
      if i + 1 >= |data| then Err(IndexError)
      else if data[i + 1] == NULL_VOLUME then Ok(Move(4, st, None))
      else DataRow(data, i, st)
    else if t in IGNORED_TAGS then
      Ok(Move(1, st, None))
    else if IsShareHeader(t) then
      if i + 1 >= |data| then Err(IndexError)
      else Ok(Move(if data[i + 1] == FREIVERKEHR then 2 else 1, st.(share := Strip(t)), None))
    else if |data| - 1 > i && (data[i + 1] == FREIVERKEHR || data[i + 1] == REGULIERTER_MARKT) then
      var prev := if i == 0 then data[|data| - 1] else data[i - 1];
      Ok(Move(2, st.(share := if |prev| == 12 then t + " (" + prev + ")" else t), None))
    else
      Ok(Move(1, st, None))
  }

  // ---------------------------------------------------------------------
  // The ledger

  /** `shares[key]`, or no entries for a key not yet seen. */
  function Rows(l: Ledger, key: string): seq<Entry> {
    if key in l.items then l.items[key] else []
  }

  /**
   * `shares.get(key).append(e)`, or `shares.update({key: [e]})` for a new
   * key: `e` goes last under `key`, a new key goes last in the key order,
   * and every other key keeps its entries.
   */
  function Record(l: Ledger, key: string, e: Entry): (r: Ledger)
    ensures Valid(l) ==> Valid(r)
    ensures Rows(r, key) == Rows(l, key) + [e]
    ensures forall k :: k != key ==> Rows(r, k) == Rows(l, k)
    ensures r.keys == if key in l.items then l.keys else l.keys + [key]
    ensures key in r.items && forall k :: k in l.items ==> k in r.items
  {
    Put(l, key, Rows(l, key) + [e])
  }

  // ---------------------------------------------------------------------
  // Scanning pages and documents

  /** What one turn of the loop does, given the page, the cursor and the state. */
  type StepFn = (seq<string>, nat, ScanState) -> Result<Move, ScanError>

  /** A successful step moves the cursor forward. */
  ghost predicate Advances(step: StepFn) {
    forall data: seq<string>, i: nat, st: ScanState ::
      step(data, i, st).Ok? ==> step(data, i, st).value.advance >= 1
  }

  /**
   * The `while i < len(data)` loop around a step: it stops at the end of
   * the page or at the first exception, and records the entry a step
   * produces under the share that is current before the step. The loop is
   * written for any step so that the properties of a whole scan can be
   * proved from the contract of `Step` alone.
   */
  function Loop(step: StepFn, data: seq<string>, i: nat, st: ScanState, ledger: Ledger): Result<Scanned, ScanError>
    requires Advances(step)
    decreases |data| - i
  {
    if i >= |data| then Ok(Scanned(st, ledger))
    else
      match step(data, i, st)
      case Err(e) => Err(e)
      case Ok(m) =>
        var next := if m.entry.Some? then Record(ledger, st.share, m.entry.value) else ledger;
        Loop(step, data, i + m.advance, m.state, next)
  }

  /** One successful turn of the loop, unfolded. */
  lemma LoopStep(step: StepFn, data: seq<string>, i: nat, st: ScanState, ledger: Ledger, m: Move)
    requires Advances(step) && i < |data| && step(data, i, st) == Ok(m)
    ensures Loop(step, data, i, st, ledger)
         == Loop(step, data, i + m.advance, m.state,
                 if m.entry.Some? then Record(ledger, st.share, m.entry.value) else ledger)
  {
  }

  /** The scanner from cursor `i` to the end of the page. */
  function ScanFrom(data: seq<string>, i: nat, st: ScanState, ledger: Ledger): Result<Scanned, ScanError> {
    StepContract();
    Loop(Step, data, i, st, ledger)
  }

  /** `parse_kursblatt_page`: one whole page. */
  function ScanPage(data: seq<string>, st: ScanState, ledger: Ledger): Result<Scanned, ScanError> {
    ScanFrom(data, 0, st, ledger)
  }

  /** The loop over a document's pages: each page starts from the state the previous one returned. */
  function ScanPages(pages: seq<seq<string>>, st: ScanState, ledger: Ledger): Result<Scanned, ScanError> {
    if pages == [] then Ok(Scanned(st, ledger))
    else
      match ScanPage(pages[0], st, ledger)
      case Err(e) => Err(e)
      case Ok(s) => ScanPages(pages[1..], s.state, s.ledger)
  }

  /** A document starts with no share name, today's date, an undecided locale and no entries. */
  function InitialState(today: Date): ScanState {
    ScanState("", today, None)
  }

  /** The dictionary one PDF document produces. */
  function ScanDocument(pages: seq<seq<string>>, today: Date): Result<Ledger, ScanError> {
    match ScanPages(pages, InitialState(today), Empty())
    case Err(e) => Err(e)
    case Ok(s) => Ok(s.ledger)
  }

  // ---------------------------------------------------------------------
  // The scanner as the program runs it

  /** The `shares` dictionary that the page scanner fills in place. */
  class ShareLedger {
    var shares: Ledger

    constructor ()
      ensures shares == Empty()
    {
      shares := Empty();
    }

    /** Appends `e` to the list under `key`, creating the list for a new key. */
    method Append(key: string, e: Entry)
      modifies this
      ensures shares == Record(old(shares), key, e)
    {
      if key in shares.items {
        shares := Put(shares, key, shares.items[key] + [e]);
      } else {
        assert Rows(shares, key) + [e] == [e];
        shares := Put(shares, key, [e]);
      }
    }
  }

  /**
   * The `while i < len(data)` loop of `parse_kursblatt_page` around a step:
   * appends to `ledger` in place and returns the state for the next page,
   * or the exception that stopped it.
   */
  method RunLoop(step: StepFn, data: seq<string>, st: ScanState, ledger: ShareLedger)
    returns (r: Result<ScanState, ScanError>)
    requires Advances(step)
    modifies ledger
    ensures var s := Loop(step, data, 0, st, old(ledger.shares));
            && (s.Ok? ==> r == Ok(s.value.state) && ledger.shares == s.value.ledger)
            && (s.Err? ==> r == Err(s.error))
  {
    ghost var goal := Loop(step, data, 0, st, ledger.shares);
    var i: nat := 0;
    var cur := st;
    while i < |data|
      invariant Loop(step, data, i, cur, ledger.shares) == goal
      decreases |data| - i
    {
      var outcome := step(data, i, cur);
      if outcome.Err? {
        return Err(outcome.error);
      }
      var m := outcome.value;
      LoopStep(step, data, i, cur, ledger.shares, m);
      if m.entry.Some? {
        ledger.Append(cur.share, m.entry.value);
      }
      i := i + m.advance;
      cur := m.state;
    }
    return Ok(cur);
  }

  /**
   * `parse_kursblatt_page`: scans one page with `Step`, appending to
   * `ledger` in place, and returns the state for the next page, or the
   * exception that stopped it.
   */
  method ParseKursblattPage(data: seq<string>, st: ScanState, ledger: ShareLedger)
    returns (r: Result<ScanState, ScanError>)
    modifies ledger
    ensures var s := ScanPage(data, st, old(ledger.shares));
            && (s.Ok? ==> r == Ok(s.value.state) && ledger.shares == s.value.ledger)
            && (s.Err? ==> r == Err(s.error))
  {
    StepContract();
    r := RunLoop(Step, data, st, ledger);
  }

  /**
   * The page loop of `process_pdf_files_task` for one document: the share
   * name, base date and locale flag returned for a page are the inputs of
   * the next one.
   */
  method ProcessDocument(pages: seq<seq<string>>, today: Date) returns (r: Result<Ledger, ScanError>)
    ensures r == ScanDocument(pages, today)
  {
    var shares := new ShareLedger();
    var st := InitialState(today);
    for p := 0 to |pages|
      invariant ScanPages(pages[p..], st, shares.shares) == ScanPages(pages, InitialState(today), Empty())
    {
      assert pages[p..][1..] == pages[p + 1..];
      var page := ParseKursblattPage(pages[p], st, shares);
      if page.Err? {
        return Err(page.error);
      }
      st := page.value;
    }
    return Ok(shares.shares);
  }

  // ---------------------------------------------------------------------
  // Writing the document: `json.dump(shares, cls=JsonDateTimeEncoder)`

  /** `JsonDateTimeEncoder.default`: a datetime is written as its `isoformat()`. */
  function EncodeDefault(dt: DateTime): Json
    requires ValidDateTime(dt)
  {
    JStr(Isoformat(dt))
  }

  /** Timestamps to the second come back unchanged through `strptime(..., "%Y-%m-%dT%H:%M:%S")`. */
  lemma EncodeDefaultRoundTrip(dt: DateTime)
    requires ValidDateTime(dt) && dt.time.micro == 0
    ensures EncodeDefault(dt).JStr? && ParseIsoSeconds(EncodeDefault(dt).s) == Some(dt)
  {
    IsoRoundTrip(dt);
  }

  /** Every timestamp in the dictionary is a real datetime. */
  predicate Dated(l: Ledger) {
    forall k, j :: k in l.items && 0 <= j < |l.items[k]| ==> ValidDateTime(l.items[k][j].ts)
  }

  /** One entry as a JSON array `[timestamp, volume, value, ordertype]`. */
  function EncodeEntry(e: Entry): Json
    requires ValidDateTime(e.ts)
  {
    JArr([EncodeDefault(e.ts), JInt(e.volume), JFloat(e.value), JInt(e.orderType)])
  }

  /** A list of entries as a JSON array, element by element. */
  function EncodeRows(rows: seq<Entry>): (j: Json)
    requires forall n :: 0 <= n < |rows| ==> ValidDateTime(rows[n].ts)
    ensures j.JArr? && |j.items| == |rows|
  {
    JArr(seq(|rows|, n requires 0 <= n < |rows| => EncodeEntry(rows[n])))
  }

  /** The JSON object written for the dictionary: same keys in the same order. */
  function EncodeLedger(l: Ledger): (d: Dict<Json>)
    requires Dated(l)
    ensures d.keys == l.keys && d.items.Keys == l.items.Keys
    ensures Valid(l) ==> Valid(d)
  {
    Dict(l.keys, map k | k in l.items :: EncodeRows(l.items[k]))
  }

  // ---------------------------------------------------------------------
  // What each branch of the scanner does

  /** A time never looks like a date marker. */
  lemma TimeIsNotDateMarker(t: string)
    requires IsTimeToken(t)
    ensures !IsDateMarker(t)
  {
    if IsDateMarker(t) {
      DateMarkerIsNotTime(t);
    }
  }

  /** A share header has a name character where a date marker has `a` and a time has `:`. */
  lemma HeaderIsNotOtherToken(t: string)
    requires IsShareHeader(t)
    ensures !IsDateMarker(t) && !IsTimeToken(t) && t !in IGNORED_TAGS
  {
    var k: nat :| 3 <= k <= |t| - 14 && IsShareHeaderAt(t, k);
    assert NameChar(t[1]) && NameChar(t[2]);
  }

  /** The ignored tags are words, neither dates nor times. */
  lemma IgnoredIsNotOtherToken(t: string)
    requires t in IGNORED_TAGS
    ensures !IsDateMarker(t) && !IsTimeToken(t)
  {
    assert |t| > 0 && t[0] != 'D' && !IsDigit(t[0]);
  }

  /** A `Datum:` line sets the base date from the rest of the line and moves on by one. */
  lemma StepDateMarker(data: seq<string>, i: nat, st: ScanState)
    requires i < |data| && IsDateMarker(data[i])
    ensures var d := ParseDmy(Strip(data[i][6..]));
            Step(data, i, st) == if d.None? then Err(DateError) else Ok(Move(1, st.(date := d.value), None))
  {
  }

  /** A row whose volume is `null` is skipped whole: four lines, no entry, no state change. */
  lemma StepNullRow(data: seq<string>, i: nat, st: ScanState)
    requires i + 1 < |data| && IsTimeToken(data[i]) && data[i + 1] == NULL_VOLUME
    ensures Step(data, i, st) == Ok(Move(4, st, None))
  {
    TimeIsNotDateMarker(data[i]);
  }

  /** Any other time line is a trade row. */
  lemma StepDataRow(data: seq<string>, i: nat, st: ScanState)
    requires i + 1 < |data| && IsTimeToken(data[i]) && data[i + 1] != NULL_VOLUME
    ensures Step(data, i, st) == DataRow(data, i, st)
  {
    TimeIsNotDateMarker(data[i]);
  }

  /**
   * A trade row: the side is SELL with the price after the `-` placeholder
   * exactly when the third line is `-`, BUY with the third line as price
   * otherwise; the volume is always the second line; share and date stay.
   */
  lemma StepTradeRow(data: seq<string>, i: nat, st: ScanState)
    requires i + 1 < |data| && IsTimeToken(data[i]) && data[i + 1] != NULL_VOLUME
    requires Step(data, i, st).Ok?
    ensures var m := Step(data, i, st).value;
            var swap := m.state.mustReplace.value;
            var sell := data[i + 2] == NO_PRICE;
            && i + 2 < |data| && (sell ==> i + 3 < |data|)
            && m.advance == 4 && m.state.share == st.share && m.state.date == st.date
            && m.entry == Some(Entry(DateTime(st.date, ParseHms(Strip(data[i])).value),
                                     ParseVolume(data[i + 1], swap).value,
                                     PriceText(data[if sell then i + 3 else i + 2], swap),
                                     if sell then SELL else BUY))
            && IsFloatText(PriceText(data[if sell then i + 3 else i + 2], swap))
  {
    TimeIsNotDateMarker(data[i]);
  }

  /**
   * The price is converted before the volume: a row whose price `float()`
   * refuses abandons the document with that error whatever its volume.
   */
  lemma StepPriceRefused(data: seq<string>, i: nat, st: ScanState, swap: bool)
    requires i + 2 < |data| && IsTimeToken(data[i]) && data[i + 1] != NULL_VOLUME
    requires st.mustReplace == Some(swap) && ParseHms(Strip(data[i])).Some?
    requires data[i + 2] != NO_PRICE && !IsFloatText(PriceText(data[i + 2], swap))
    ensures Step(data, i, st) == Err(PriceError)
  {
    TimeIsNotDateMarker(data[i]);
  }

  /**
   * A placeholder written with blanks around it, ` - `, is not the `-` of a
   * sell row: it is taken as the buy price, which `float()` refuses.
   */
  lemma SpacedDashRefused(data: seq<string>, i: nat, st: ScanState)
    requires i + 2 < |data| && IsTimeToken(data[i]) && data[i + 1] != NULL_VOLUME
    requires st.mustReplace.Some? && ParseHms(Strip(data[i])).Some?
    requires data[i + 2] == " - "
    ensures Step(data, i, st) == Err(PriceError)
  {
    SpacedDashText(st.mustReplace.value);
    StepPriceRefused(data, i, st, st.mustReplace.value);
  }

  /** ` - ` reaches `float()` unchanged under either layout, and `float()` refuses it. */
  lemma SpacedDashText(swap: bool)
    ensures !IsFloatText(PriceText(" - ", swap))
  {
    SpacedDashStrip();
    SpacedDashKept(swap);
    SignOnlyNotFloat(" - ");
  }

  lemma SpacedDashStrip()
    ensures Strip(" - ") == "-"
  {
    StripBetweenBlanks('-');
  }

  lemma SpacedDashKept(swap: bool)
    ensures PriceText(" - ", swap) == " - "
  {
    var tok := " - ";
    if swap {
      SwapChar(tok, 0);
      SwapChar(tok, 1);
      SwapChar(tok, 2);
      assert SwapSeparators(tok) == tok;
    }
    assert Delocalize(tok) == tok;
  }

  /**
   * The first trade row of a document decides the locale: German layout
   * when the fourth-last character of the probed price is a comma.
   */
  lemma StepLocaleDecision(data: seq<string>, i: nat, st: ScanState)
    requires i + 1 < |data| && IsTimeToken(data[i]) && data[i + 1] != NULL_VOLUME
    requires st.mustReplace.None? && Step(data, i, st).Ok?
    ensures i + 2 < |data|
    ensures var p := LocaleProbe(data, i);
            && p < |data| && |data[p]| >= 4
            && Step(data, i, st).value.state.mustReplace == Some(data[p][|data[p]| - 4] == ',')
  {
    StepDataRow(data, i, st);
  }

  /** An ignored tag is passed over. */
  lemma StepIgnoredTag(data: seq<string>, i: nat, st: ScanState)
    requires i < |data| && data[i] in IGNORED_TAGS
    ensures Step(data, i, st) == Ok(Move(1, st, None))
  {
    IgnoredIsNotOtherToken(data[i]);
  }

  /**
   * A share header becomes the current share, stripped; the cursor skips a
   * following `Freiverkehr` column.
   */
  lemma StepShareHeader(data: seq<string>, i: nat, st: ScanState)
    requires i < |data| && IsShareHeader(data[i])
    ensures Step(data, i, st).Ok? <==> i + 1 < |data|
    ensures i + 1 < |data| ==>
              Step(data, i, st).value
              == Move(if data[i + 1] == FREIVERKEHR then 2 else 1, st.(share := Strip(data[i])), None)
  {
    HeaderIsNotOtherToken(data[i]);
  }

  /**
   * A segment label (`Freiverkehr` or `Regulierter Markt` on the next line)
   * names the share after the token, with the previous line in parentheses
   * when that line has the length of an ISIN; the cursor moves on by two.
   */
  lemma StepSegmentLabel(data: seq<string>, i: nat, st: ScanState)
    requires i + 1 < |data|
    requires !IsDateMarker(data[i]) && !IsTimeToken(data[i])
    requires data[i] !in IGNORED_TAGS && !IsShareHeader(data[i])
    requires data[i + 1] == FREIVERKEHR || data[i + 1] == REGULIERTER_MARKT
    ensures var prev := if i == 0 then data[|data| - 1] else data[i - 1];
            var name := if |prev| == 12 then data[i] + " (" + prev + ")" else data[i];
            Step(data, i, st) == Ok(Move(2, st.(share := name), None))
  {
  }

  /** Any other line is skipped. */
  lemma StepOtherLine(data: seq<string>, i: nat, st: ScanState)
    requires i < |data|
    requires !IsDateMarker(data[i]) && !IsTimeToken(data[i])
    requires data[i] !in IGNORED_TAGS && !IsShareHeader(data[i])
    requires !(i + 1 < |data| && (data[i + 1] == FREIVERKEHR || data[i + 1] == REGULIERTER_MARKT))
    ensures Step(data, i, st) == Ok(Move(1, st, None))
  {
  }

  // ---------------------------------------------------------------------
  // What a whole scan preserves

  /** `b` grew from `a` by appending: keys added at the end, entries added at the end of each list. */
  ghost predicate Extends(a: Ledger, b: Ledger) {
    && |a.keys| <= |b.keys| && b.keys[..|a.keys|] == a.keys
    && (forall k :: k in a.items ==> k in b.items)
    && (forall k :: Rows(a, k) <= Rows(b, k))
  }

  lemma ExtendsTrans(a: Ledger, b: Ledger, c: Ledger)
    requires Extends(a, b) && Extends(b, c)
    ensures Extends(a, c)
  {
    assert c.keys[..|a.keys|] == c.keys[..|b.keys|][..|a.keys|];
    forall k
      ensures Rows(a, k) <= Rows(c, k)
    {
      assert Rows(a, k) <= Rows(b, k) <= Rows(c, k);
    }
  }

  /** Every entry of the dictionary is well formed. */
  predicate AllWellFormed(l: Ledger) {
    forall k, j :: k in l.items && 0 <= j < |l.items[k]| ==> WellFormed(l.items[k][j])
  }

  /** Recording a well-formed entry keeps every entry well formed. */
  lemma RecordWellFormed(l: Ledger, key: string, e: Entry)
    requires AllWellFormed(l) && WellFormed(e)
    ensures AllWellFormed(Record(l, key, e))
  {
    var r := Record(l, key, e);
    forall k, j | k in r.items && 0 <= j < |r.items[k]|
      ensures WellFormed(r.items[k][j])
    {
      assert r.items[k] == Rows(r, k);
      if k == key {
        assert r.items[k] == Rows(l, key) + [e];
      } else {
        assert r.items[k] == l.items[k];
      }
    }
  }

  // The facts about one step that the properties of a whole scan rest on.

  /** Once the locale flag is decided, a step leaves it alone. */
  ghost predicate KeepsLocale(step: StepFn) {
    forall data: seq<string>, i: nat, st: ScanState ::
      st.mustReplace.Some? && step(data, i, st).Ok? ==>
        step(data, i, st).value.state.mustReplace == st.mustReplace
  }

  /** A step records only at a time line, and decides the locale only when it records. */
  ghost predicate RecordsAtTimes(step: StepFn) {
    forall data: seq<string>, i: nat, st: ScanState :: step(data, i, st).Ok? ==>
      var m := step(data, i, st).value;
      && (m.entry.Some? ==> i < |data| && IsTimeToken(data[i]) && m.state.mustReplace.Some?)
      && (m.state.mustReplace != st.mustReplace ==> m.entry.Some?)
  }

  /** From a real base date a step keeps a real date and records well-formed entries only. */
  ghost predicate KeepsWellFormed(step: StepFn) {
    forall data: seq<string>, i: nat, st: ScanState ::
      ValidDate(st.date) && step(data, i, st).Ok? ==>
        var m := step(data, i, st).value;
        ValidDate(m.state.date) && (m.entry.Some? ==> WellFormed(m.entry.value))
  }

  /** `Step` has all of them. */
  lemma StepContract()
    ensures Advances(Step) && KeepsLocale(Step) && RecordsAtTimes(Step) && KeepsWellFormed(Step)
  {
  }

  lemma {:induction false} LoopKeepsLocale(step: StepFn, data: seq<string>, i: nat, st: ScanState, l: Ledger)
    requires Advances(step) && KeepsLocale(step)
    requires st.mustReplace.Some? && Loop(step, data, i, st, l).Ok?
    ensures Loop(step, data, i, st, l).value.state.mustReplace == st.mustReplace
    decreases |data| - i
  {
    if i < |data| {
      var m := step(data, i, st).value;
      var next := if m.entry.Some? then Record(l, st.share, m.entry.value) else l;
      LoopKeepsLocale(step, data, i + m.advance, m.state, next);
    }
  }

  lemma {:induction false} LoopExtends(step: StepFn, data: seq<string>, i: nat, st: ScanState, l: Ledger)
    requires Advances(step) && Loop(step, data, i, st, l).Ok?
    ensures Extends(l, Loop(step, data, i, st, l).value.ledger)
    ensures Valid(l) ==> Valid(Loop(step, data, i, st, l).value.ledger)
    decreases |data| - i
  {
    if i < |data| {
      var m := step(data, i, st).value;
      var next := if m.entry.Some? then Record(l, st.share, m.entry.value) else l;
      LoopExtends(step, data, i + m.advance, m.state, next);
      assert Extends(l, next);
      ExtendsTrans(l, next, Loop(step, data, i, st, l).value.ledger);
    } else {
      assert l.keys[..|l.keys|] == l.keys;
    }
  }

  lemma {:induction false} LoopLocaleDecided(step: StepFn, data: seq<string>, i: nat, st: ScanState, l: Ledger)
    requires Advances(step) && KeepsLocale(step) && RecordsAtTimes(step)
    requires Loop(step, data, i, st, l).Ok? && Loop(step, data, i, st, l).value.ledger != l
    ensures Loop(step, data, i, st, l).value.state.mustReplace.Some?
    decreases |data| - i
  {
    var m := step(data, i, st).value;
    if m.entry.Some? {
      LoopKeepsLocale(step, data, i + m.advance, m.state, Record(l, st.share, m.entry.value));
    } else {
      LoopLocaleDecided(step, data, i + m.advance, m.state, l);
    }
  }

  lemma {:induction false} LoopWellFormed(step: StepFn, data: seq<string>, i: nat, st: ScanState, l: Ledger)
    requires Advances(step) && KeepsWellFormed(step)
    requires ValidDate(st.date) && AllWellFormed(l) && Loop(step, data, i, st, l).Ok?
    ensures AllWellFormed(Loop(step, data, i, st, l).value.ledger)
    ensures ValidDate(Loop(step, data, i, st, l).value.state.date)
    decreases |data| - i
  {
    if i < |data| {
      var m := step(data, i, st).value;
      if m.entry.Some? {
        RecordWellFormed(l, st.share, m.entry.value);
      }
      var next := if m.entry.Some? then Record(l, st.share, m.entry.value) else l;
      LoopWellFormed(step, data, i + m.advance, m.state, next);
    }
  }

  lemma {:induction false} LoopWithoutTimes(step: StepFn, data: seq<string>, i: nat, st: ScanState, l: Ledger)
    requires Advances(step) && RecordsAtTimes(step)
    requires forall k :: i <= k < |data| ==> !IsTimeToken(data[k])
    requires Loop(step, data, i, st, l).Ok?
    ensures Loop(step, data, i, st, l).value.ledger == l
    ensures Loop(step, data, i, st, l).value.state.mustReplace == st.mustReplace
    decreases |data| - i
  {
    if i < |data| {
      var m := step(data, i, st).value;
      LoopWithoutTimes(step, data, i + m.advance, m.state, l);
    }
  }

  /** Once decided, the locale flag stays as it is for the rest of the page. */
  lemma ScanKeepsLocale(data: seq<string>, i: nat, st: ScanState, l: Ledger)
    requires st.mustReplace.Some? && ScanFrom(data, i, st, l).Ok?
    ensures ScanFrom(data, i, st, l).value.state.mustReplace == st.mustReplace
  {
    StepContract();
    LoopKeepsLocale(Step, data, i, st, l);
  }

  /**
   * Scanning only appends: keys already present keep their place, lists
   * already present keep their entries, and the key order stays a list of
   * distinct keys.
   */
  lemma ScanExtends(data: seq<string>, i: nat, st: ScanState, l: Ledger)
    requires ScanFrom(data, i, st, l).Ok?
    ensures Extends(l, ScanFrom(data, i, st, l).value.ledger)
    ensures Valid(l) ==> Valid(ScanFrom(data, i, st, l).value.ledger)
  {
    StepContract();
    LoopExtends(Step, data, i, st, l);
  }

  /** A page that records anything has decided the locale by its end. */
  lemma ScanLocaleDecided(data: seq<string>, i: nat, st: ScanState, l: Ledger)
    requires ScanFrom(data, i, st, l).Ok? && ScanFrom(data, i, st, l).value.ledger != l
    ensures ScanFrom(data, i, st, l).value.state.mustReplace.Some?
  {
    StepContract();
    LoopLocaleDecided(Step, data, i, st, l);
  }

  /** Every entry a scan records has a real timestamp to the second and a side. */
  lemma ScanWellFormed(data: seq<string>, i: nat, st: ScanState, l: Ledger)
    requires ValidDate(st.date) && AllWellFormed(l) && ScanFrom(data, i, st, l).Ok?
    ensures AllWellFormed(ScanFrom(data, i, st, l).value.ledger)
    ensures ValidDate(ScanFrom(data, i, st, l).value.state.date)
  {
    StepContract();
    LoopWellFormed(Step, data, i, st, l);
  }

  /** Without a time line the page records nothing and leaves the locale flag alone. */
  lemma ScanWithoutTimes(data: seq<string>, i: nat, st: ScanState, l: Ledger)
    requires forall k :: i <= k < |data| ==> !IsTimeToken(data[k])
    requires ScanFrom(data, i, st, l).Ok?
    ensures ScanFrom(data, i, st, l).value.ledger == l
    ensures ScanFrom(data, i, st, l).value.state.mustReplace == st.mustReplace
  {
    StepContract();
    LoopWithoutTimes(Step, data, i, st, l);
  }

  // ---------------------------------------------------------------------
  // Across pages

  /** Scanning two runs of pages one after the other is scanning them joined. */
  lemma {:induction false} ScanPagesJoin(pages1: seq<seq<string>>, pages2: seq<seq<string>>, st: ScanState, l: Ledger)
    ensures ScanPages(pages1 + pages2, st, l)
         == match ScanPages(pages1, st, l)
            case Err(e) => Err(e)
            case Ok(s) => ScanPages(pages2, s.state, s.ledger)
  {
    if pages1 != [] {
      assert (pages1 + pages2)[0] == pages1[0];
      assert (pages1 + pages2)[1..] == pages1[1..] + pages2;
      match ScanPage(pages1[0], st, l)
      case Err(e) =>
      case Ok(s) => ScanPagesJoin(pages1[1..], pages2, s.state, s.ledger);
    } else {
      assert pages1 + pages2 == pages2;
    }
  }

  /** A one-page document is that page scanned from the initial state. */
  lemma ScanDocumentOnePage(page: seq<string>, today: Date)
    ensures ScanDocument([page], today)
         == match ScanPage(page, InitialState(today), Empty())
            case Err(e) => Err(e)
            case Ok(s) => Ok(s.ledger)
  {
    assert [page][0] == page && [page][1..] == [];
    match ScanPage(page, InitialState(today), Empty())
    case Err(e) =>
    case Ok(s) => assert ScanPages([], s.state, s.ledger) == Ok(s);
  }

  /** The locale flag a page decides is handed on to every later page unchanged. */
  lemma {:induction false} ScanPagesKeepLocale(pages: seq<seq<string>>, st: ScanState, l: Ledger)
    requires st.mustReplace.Some? && ScanPages(pages, st, l).Ok?
    ensures ScanPages(pages, st, l).value.state.mustReplace == st.mustReplace
  {
    if pages != [] {
      var s := ScanPage(pages[0], st, l).value;
      ScanKeepsLocale(pages[0], 0, st, l);
      ScanPagesKeepLocale(pages[1..], s.state, s.ledger);
    }
  }

  /** Page after page, the dictionary only grows and its entries stay well formed. */
  lemma {:induction false} ScanPagesWellFormed(pages: seq<seq<string>>, st: ScanState, l: Ledger)
    requires ValidDate(st.date) && Valid(l) && AllWellFormed(l) && ScanPages(pages, st, l).Ok?
    ensures var r := ScanPages(pages, st, l).value.ledger;
            Extends(l, r) && Valid(r) && AllWellFormed(r)
  {
    if pages == [] {
      assert l.keys[..|l.keys|] == l.keys;
    } else {
      var s := ScanPage(pages[0], st, l).value;
      ScanExtends(pages[0], 0, st, l);
      ScanWellFormed(pages[0], 0, st, l);
      ScanPagesWellFormed(pages[1..], s.state, s.ledger);
      ExtendsTrans(l, s.ledger, ScanPages(pages, st, l).value.ledger);
    }
  }

  /** The dictionary of a document: distinct keys in first-seen order, well-formed entries. */
  lemma DocumentWellFormed(pages: seq<seq<string>>, today: Date)
    requires ValidDate(today) && ScanDocument(pages, today).Ok?
    ensures Valid(ScanDocument(pages, today).value) && AllWellFormed(ScanDocument(pages, today).value)
  {
    ScanPagesWellFormed(pages, InitialState(today), Empty());
  }
}
