# se-collector core in Dafny

A model of the data path of the se-collector stock-exchange trade collector:

- **Kursblatt reader** (`se_collector/tools/pdf_to_json.py`). One pass over the
  text lines of each PDF page. It recognises `Datum:` date markers, trade rows
  (time, volume, optional `-` placeholder, price), ignored header tags and share
  headers. It detects the number layout (German or US) from the first trade row
  and fills an insertion-ordered dictionary `"NAME (ISIN)" -> [[datetime,
  volume, value, ordertype], ...]`. The page loop threads the current share,
  the base date and the layout flag from one page to the next.
  `JsonDateTimeEncoder.default` writes datetimes as `isoformat()`.
- **JSON loader** (`se_collector/tools/json_to_db.py`). The `try_datetime`
  decoder hook turns the first element of every row back into a datetime. The
  load loop then turns each file into one batch of share transactions:
  - the key is split into name and ISIN;
  - rows are numbered from 0 within each share;
  - side `0` becomes `S` and anything else `B`;
  - the entries of all files are counted.
- **LS-X live collector** (`se_collector/lsx/lsx_collector.py`). The
  trading-hours test (ISO week days 1-5, 07:30-23:00 inclusive, not a
  non-trading day). The choice of feeds: yesterday's feed first when noon
  yesterday was inside trading hours, then always today's. The conversion of
  every CSV row into a `TradeData`.

Modules:

| Module | Contents |
|---|---|
| `Wrappers` | `Option`, `Result` |
| `Text` | `strip`, `replace`, slicing and `int()` |
| `Calendar` | proleptic Gregorian dates, ordinals, ISO week days, the previous day |
| `Strptime` | `datetime.strptime` for the four formats used, and `isoformat()` |
| `Dicts` | insertion-ordered dictionaries |
| `JsonValues` | JSON values |
| `Collect` | generic "loop that builds a list and stops at the first exception" |
| `Kursblatt` | the reader |
| `KursblattExamples` | a one-page Kursblatt worked through the reader |
| `JsonToDb` | the loader |
| `Pipeline` | writer and loader together |
| `LsxCollector` | the live collector |

Imperative code is modelled with imperative Dafny:

- The page scanner appends in place to a `ShareLedger` object. Its loop is the
  `while` loop of `RunLoop`, proved against the functional scanner `Loop`.
- The page loop, `try_datetime`'s two loops, the load loops and `_get_trades`'
  feed loop are methods with loop invariants. Each ties its result to a
  specification function. The properties are then proved about that function.

Exceptions are `Result` errors carrying the Python exception class.

## Model

| member | source | states |
|---|---|---|
| Kursblatt.DateMarkerIsNotTime | se_collector/tools/pdf_to_json.py:51-56 | a `Datum:` line never matches the time pattern, so the order of the first two branches does not matter |
| Kursblatt.TimeIsNotDateMarker | se_collector/tools/pdf_to_json.py:51-56 | a time line never looks like a date marker |
| Kursblatt.HeaderIsNotOtherToken | se_collector/tools/pdf_to_json.py:51-94 | a share header is neither a date marker, a time nor an ignored tag, so it reaches its own branch |
| Kursblatt.IgnoredIsNotOtherToken | se_collector/tools/pdf_to_json.py:51-91 | the ignored tags are neither date markers nor times |
| Kursblatt.SwapChar | se_collector/tools/pdf_to_json.py:71 | the German-layout swap turns `.` and `_` into `,`, turns `,` into `.`, and keeps every other character |
| Kursblatt.SwapInvolution | se_collector/tools/pdf_to_json.py:71 | without underscores, swapping twice gives the token back |
| Kursblatt.PriceText | se_collector/tools/pdf_to_json.py:68-80 | the text `atof` sees: the German-layout swap when the flag is set, then the `en_US` delocalisation; `float()` acceptance of it is stated by `StepTradeRow` and `StepPriceRefused` |
| Kursblatt.Delocalize | se_collector/tools/pdf_to_json.py:73 | `atof`/`atoi` under `en_US` see no `,` (the thousands separator is dropped) |
| Kursblatt.DelocalizeGrouped | se_collector/tools/pdf_to_json.py:73 | dropping the separator keeps the text on both sides of it, in order |
| Kursblatt.ParseVolume | se_collector/tools/pdf_to_json.py:81-84 | `atoi` of the volume line after the same swap and delocalisation; its values are given by `VolumeUsGrouped`, `VolumeDeGrouped` and `Text.PyIntDigits` |
| Kursblatt.VolumeUsGrouped | se_collector/tools/pdf_to_json.py:84 | under US layout `x,y` of digit strings is the volume of the digits `xy` (`1,234` is 1234) |
| Kursblatt.VolumeDeGrouped | se_collector/tools/pdf_to_json.py:81-82 | in German layout `x.y` of digit strings is the volume of the digits `xy` (`1.234` is 1234) |
| Kursblatt.DataRow | se_collector/tools/pdf_to_json.py:62-90 | a trade row moves by 4 and records an entry dated on the base date. Only the layout flag may change, and it is decided afterwards. An already decided flag is kept. An undecided flag becomes the layout the probe detects. From a real date the entry is well formed. The recorded price is a text `float()` accepts. |
| Kursblatt.Step | se_collector/tools/pdf_to_json.py:49-109 | one loop turn moves by 1, 2 or 4 (4 exactly at a time line). An entry is recorded only at a time line. The flag, once set, never changes. Only a `Datum:` line changes the date, and a real date stays real. |
| Kursblatt.StepDateMarker | se_collector/tools/pdf_to_json.py:51-55 | a `Datum:` line sets the date from its stripped rest, or raises when `strptime` refuses it |
| Kursblatt.StepNullRow | se_collector/tools/pdf_to_json.py:56-61 | a row with `null` volume is skipped whole: 4 lines, no entry, nothing changed |
| Kursblatt.StepDataRow | se_collector/tools/pdf_to_json.py:56-90 | any other time line is handled as a trade row |
| Kursblatt.StepTradeRow | se_collector/tools/pdf_to_json.py:67-90 | a recorded row: SELL with the price after `-` exactly when the third line is `-`, otherwise BUY with the third line as price. The volume is the second line. Share and date stay the same. `float()` accepts the price. |
| Kursblatt.StepPriceRefused | se_collector/tools/pdf_to_json.py:68-84 | a buy price that `float()` refuses raises before the volume is read |
| Kursblatt.SpacedDashRefused | se_collector/tools/pdf_to_json.py:65-77 | a third line ` - ` is not the sell placeholder; as a buy price it raises ValueError |
| Kursblatt.DetectLocale | se_collector/tools/pdf_to_json.py:63-66 | the layout probe succeeds only when the third line exists; the flag it decides is stated by `StepLocaleDecision` |
| Kursblatt.StepLocaleDecision | se_collector/tools/pdf_to_json.py:63-65 | the first trade row decides German layout exactly when the probed price's fourth-last character is `,`. The probe is the token after a stripped `-`, else the third line. |
| Kursblatt.StepIgnoredTag | se_collector/tools/pdf_to_json.py:91-93 | an ignored tag is passed over |
| Kursblatt.StepShareHeader | se_collector/tools/pdf_to_json.py:94-97 | a header becomes the stripped current share. A following `Freiverkehr` is skipped. A header on the last line raises. |
| Kursblatt.StepSegmentLabel | se_collector/tools/pdf_to_json.py:99-105 | a token before `Freiverkehr`/`Regulierter Markt` names the share. A 12-character previous line is added in parentheses; at index 0 that line is the page's last. |
| Kursblatt.StepOtherLine | se_collector/tools/pdf_to_json.py:107-109 | any other line is skipped |
| Kursblatt.Record | se_collector/tools/pdf_to_json.py:86-89 | the entry goes last under its key. A new key goes last in the key order. The other keys are unchanged and the dictionary stays valid. |
| Kursblatt.ShareLedger.constructor | se_collector/tools/pdf_to_json.py:130 | the dictionary starts empty |
| Kursblatt.ShareLedger.Append | se_collector/tools/pdf_to_json.py:86-89 | in place, the dictionary becomes `Record` of the old one |
| Kursblatt.RunLoop | se_collector/tools/pdf_to_json.py:48-112 | the `while` loop leaves in the ledger exactly what the scan function computes, and returns its state or its exception |
| Kursblatt.ScanPage | se_collector/tools/pdf_to_json.py:49-109 | the value `parse_kursblatt_page` computes: the `while` loop over a page's lines from the given state; its properties are `ScanKeepsLocale`, `ScanExtends`, `ScanLocaleDecided`, `ScanWellFormed` and `ScanWithoutTimes` |
| Kursblatt.ParseKursblattPage | se_collector/tools/pdf_to_json.py:24-112 | one page, scanned in place, equals `ScanPage` of the old dictionary |
| Kursblatt.ProcessDocument | se_collector/tools/pdf_to_json.py:127-139 | the page loop, each page starting from the previous page's share, date and flag, gives `ScanDocument` |
| Kursblatt.RecordWellFormed | se_collector/tools/pdf_to_json.py:85-89 | appending a well-formed entry keeps every entry well formed |
| Kursblatt.StepContract | se_collector/tools/pdf_to_json.py:49-109 | the step advances, keeps a decided flag, records only at time lines, and keeps dates and entries well formed |
| Kursblatt.LoopKeepsLocale | se_collector/tools/pdf_to_json.py:49-112 | for any step keeping the flag, a scan keeps a decided flag |
| Kursblatt.LoopExtends | se_collector/tools/pdf_to_json.py:49-112 | a scan only appends keys and entries, and keeps the dictionary valid |
| Kursblatt.LoopLocaleDecided | se_collector/tools/pdf_to_json.py:49-112 | a scan that records anything ends with the flag decided |
| Kursblatt.LoopWellFormed | se_collector/tools/pdf_to_json.py:49-112 | a scan keeps the date real and every entry well formed |
| Kursblatt.LoopWithoutTimes | se_collector/tools/pdf_to_json.py:49-112 | without time lines a scan records nothing and keeps the flag |
| Kursblatt.ScanKeepsLocale | se_collector/tools/pdf_to_json.py:63-66 | once decided, the page keeps the layout flag |
| Kursblatt.ScanExtends | se_collector/tools/pdf_to_json.py:86-89 | a page only appends to the dictionary, keeping it valid |
| Kursblatt.ScanLocaleDecided | se_collector/tools/pdf_to_json.py:63-66 | a page that records a row has decided the layout |
| Kursblatt.ScanWellFormed | se_collector/tools/pdf_to_json.py:85 | every recorded entry has a real timestamp to the second and side 0 or 1 |
| Kursblatt.ScanWithoutTimes | se_collector/tools/pdf_to_json.py:49-109 | a page without time lines records nothing and keeps the flag |
| Kursblatt.ScanPagesJoin | se_collector/tools/pdf_to_json.py:136-139 | scanning two runs of pages in turn is scanning them joined |
| Kursblatt.ScanDocument | se_collector/tools/pdf_to_json.py:127-139 | the page loop from no share, today's date and an undecided layout; characterised by `ScanDocumentOnePage`, `ScanPagesJoin` and `DocumentWellFormed` |
| Kursblatt.ScanDocumentOnePage | se_collector/tools/pdf_to_json.py:127-139 | a one-page document is that page scanned from no share, today's date and no flag |
| Kursblatt.ScanPagesKeepLocale | se_collector/tools/pdf_to_json.py:137-139 | a flag decided on one page is handed unchanged to all later pages |
| Kursblatt.ScanPagesWellFormed | se_collector/tools/pdf_to_json.py:136-139 | page after page the dictionary only grows, stays valid and keeps entries well formed |
| Kursblatt.DocumentWellFormed | se_collector/tools/pdf_to_json.py:127-139 | a document's dictionary has distinct keys in first-seen order and only well-formed entries |
| Kursblatt.EncodeDefaultRoundTrip | se_collector/tools/pdf_to_json.py:17-21 | a timestamp to the second is written as a string that the loader's `strptime` reads back as the same datetime |
| Kursblatt.EncodeEntry | se_collector/tools/pdf_to_json.py:147 | one entry as `[isoformat, volume, value, ordertype]`; read back by `Pipeline.EncodedEntryDecodes` |
| Kursblatt.EncodeRows | se_collector/tools/pdf_to_json.py:147 | a share's list is written as an array with one element per entry |
| Kursblatt.EncodeLedger | se_collector/tools/pdf_to_json.py:147 | the written object has the dictionary's keys in the same order, and is valid when the dictionary is |
| KursblattExamples.DateLine | se_collector/tools/pdf_to_json.py:51-53 | `Datum: 01.03.2021` is a date marker for 2021-03-01 |
| KursblattExamples.HmsAfternoon | se_collector/tools/pdf_to_json.py:67 | `14:05:00` parses as 14:05:00 |
| KursblattExamples.PriceFiveHundred | se_collector/tools/pdf_to_json.py:73 | under US layout the price `5,00` reaches `float()` as `500`, which it accepts |
| KursblattExamples.FirstRowUs | se_collector/tools/pdf_to_json.py:63-65 | the row `09:00:00 100 5,00 +` decides US layout: `5,00`'s fourth-last character is `5` |
| KursblattExamples.AcmeHeaderStep | se_collector/tools/pdf_to_json.py:94-97 | `ACME (DE000ACME001)` becomes the current share |
| KursblattExamples.AcmeDocument | se_collector/tools/pdf_to_json.py:127-139 | the one-page example document gives `{"ACME (DE000ACME001)": [[2021-03-01 09:00:00, 100, "500", 1]]}` |
| Strptime.ParseDmy | se_collector/tools/pdf_to_json.py:53 | a date `strptime` accepts is a real date |
| Strptime.ParseHms | se_collector/tools/pdf_to_json.py:67 | a time `strptime` accepts is a real time with no microseconds |
| Strptime.ParseIsoSeconds | se_collector/tools/json_to_db.py:27 | a timestamp `strptime` accepts is a real datetime to the second |
| Strptime.ParseFeedTimestamp | se_collector/lsx/lsx_collector.py:30 | a feed timestamp `strptime` accepts is a real datetime |
| Strptime.MatchRender | se_collector/tools/json_to_db.py:27 | any numeric format with separated fields and blanks reads back its zero-padded rendering, and refuses trailing text |
| Strptime.FeedRoundTrip | se_collector/lsx/lsx_collector.py:30 | every valid datetime written `YYYY-MM-DD HH:MM:SS.ffffff` is read back by the feed format, microseconds included |
| Strptime.FractionTrailingZero | se_collector/lsx/lsx_collector.py:30 | `%f` pads its digits on the right: a trailing zero does not change the microseconds |
| Strptime.FractionHalf | se_collector/lsx/lsx_collector.py:30 | `%f` reads `5` as 500000 microseconds |
| Strptime.Isoformat | se_collector/tools/pdf_to_json.py:20-21 | `isoformat()`: seconds always, `.ffffff` only for nonzero microseconds; characterised by `IsoRoundTrip` and `IsoMicrosecondsRejected` |
| Strptime.IsoRoundTrip | se_collector/tools/pdf_to_json.py:20-21 | `strptime(isoformat(dt), "%Y-%m-%dT%H:%M:%S") == dt` for every datetime without microseconds |
| Strptime.IsoMicrosecondsRejected | se_collector/tools/pdf_to_json.py:20-21 | a datetime with microseconds is written in a form the loader's format refuses |
| Strptime.IsoReadBack | se_collector/tools/json_to_db.py:27 | the ISO format reads what `isoformat()` writes up to the seconds and nothing more |
| Strptime.DmyRoundTrip | se_collector/tools/pdf_to_json.py:53 | every date written `dd.mm.YYYY` is read back |
| Strptime.HmsRoundTrip | se_collector/tools/pdf_to_json.py:67 | every time to the second written `HH:MM:SS` is read back |
| Strptime.ShortTextNotIso | se_collector/tools/json_to_db.py:27 | a text shorter than four characters is never a timestamp |
| Calendar.IsoWeekday | se_collector/lsx/lsx_collector.py:60 | `isoweekday()` is between 1 and 7 |
| Calendar.IsoWeekdayAnchor | se_collector/lsx/lsx_collector.py:60 | 2021-03-01 is a Monday (1) and 2021-03-07 a Sunday (7) |
| Calendar.PrevDay | se_collector/lsx/lsx_collector.py:74 | subtracting one day fails exactly on 0001-01-01; otherwise the result is a real date |
| Calendar.PrevDayOrdinal | se_collector/lsx/lsx_collector.py:74 | the previous day is one ordinal earlier |
| Calendar.PrevDayWeekday | se_collector/lsx/lsx_collector.py:74 | the day before a Monday is a Sunday, otherwise the previous week day |
| Text.Strip | se_collector/tools/pdf_to_json.py:96 | `strip()` neither starts nor ends with whitespace |
| Text.StripInfix | se_collector/tools/pdf_to_json.py:96 | `strip()` is a contiguous part of the text; everything dropped before and after it is whitespace |
| Text.StripIdempotent | se_collector/lsx/lsx_collector.py:30 | `strip()` twice is `strip()` once |
| Text.Replace | se_collector/lsx/lsx_collector.py:31 | `str.replace` of one character keeps the length; its effect is stated by `ReplaceChar` and `ReplaceAbsent` |
| Text.ReplaceChar | se_collector/lsx/lsx_collector.py:31 | after `replace(",", ".")` no comma is left, and only commas changed |
| Text.ReplaceAbsent | se_collector/lsx/lsx_collector.py:31 | replacing an absent character changes nothing |
| Text.Remove | se_collector/tools/pdf_to_json.py:73 | removing a character leaves none of it and keeps a text without it unchanged |
| Text.RemoveAppend | se_collector/tools/pdf_to_json.py:73 | removal works piece by piece: removing from `s + t` is removing from `s`, then from `t` |
| Text.RemoveOne | se_collector/tools/pdf_to_json.py:73 | a single character is dropped exactly when it is the removed one |
| Text.IsFloatText | se_collector/lsx/lsx_collector.py:31 | the texts `float()` accepts: optional blanks and sign around `inf`, `infinity`, `nan` in any case, or digits with an optional point and an `e` exponent; instances in `DigitsAreFloat`, `PointNumberIsFloat`, `SignOnlyNotFloat`, `WordNotFloat` |
| Text.FindAny | se_collector/lsx/lsx_collector.py:31 | the first position holding one of the characters, or the length when there is none |
| Text.DigitsAreFloat | se_collector/tools/pdf_to_json.py:73 | `float()` accepts a digit string |
| Text.PointNumberIsFloat | se_collector/tools/pdf_to_json.py:71 | `float()` accepts digits, a point and digits |
| Text.SignOnlyNotFloat | se_collector/tools/pdf_to_json.py:77-79 | `float()` refuses a lone `-` between blanks |
| Text.WordNotFloat | se_collector/lsx/lsx_collector.py:31 | `float()` refuses `abc` |
| Text.PyInt | se_collector/lsx/lsx_collector.py:31 | `int()` of a text: blanks stripped, an optional sign, digit groups; characterised by `PyIntDigits` and `PyIntShow` |
| Text.PyIntDigits | se_collector/tools/pdf_to_json.py:84 | `int()` of a digit string is its decimal value |
| Text.PyIntShow | se_collector/lsx/lsx_collector.py:31 | `int(str(n)) == n` for every integer |
| Dicts.Put | se_collector/tools/pdf_to_json.py:86-89 | setting a key changes only that key, and adds a new key at the end of the order |
| Dicts.Get | se_collector/tools/pdf_to_json.py:86-87 | `get` finds exactly the keys present |
| Dicts.Empty | se_collector/tools/pdf_to_json.py:130 | `{}` is a valid dictionary without keys |
| Collect.MapAllOk | se_collector/tools/json_to_db.py:25-27 | the loop succeeds exactly when every element converts, giving every converted element in order |
| Collect.MapAllError | se_collector/tools/json_to_db.py:25-27 | a failed loop raises the exception of the first element that fails |
| Collect.MapAllErrorStays | se_collector/tools/json_to_db.py:25-27 | once an element fails, later elements do not matter |
| Collect.MapAllAppend | se_collector/lsx/lsx_collector.py:77-80 | converting two lists in turn equals converting them joined |
| Collect.MapValuesKeys | se_collector/tools/json_to_db.py:19-30 | the rebuilt dictionary has the same keys in the same order |
| Collect.MapValuesOk | se_collector/tools/json_to_db.py:20-29 | the dictionary loop succeeds exactly when every value converts, each key holding its converted value |
| Collect.MapValuesError | se_collector/tools/json_to_db.py:20-29 | a failed dictionary loop raises the first failing value's exception |
| Collect.Next | se_collector/tools/json_to_db.py:40-61 | one more file never takes back a batch already handed on and adds at most one; the run goes on exactly while every file loads, and a failure carries that file's exception |
| Collect.NextKeepsCount | se_collector/tools/json_to_db.py:51 | a count that equals the items of the batches handed on still does after one more file |
| Collect.TotalSnoc | se_collector/tools/json_to_db.py:51 | one more batch adds its length to the total |
| Collect.BatchesCount | se_collector/tools/json_to_db.py:39-63 | at most one batch per file. A full run has one batch per file, and the count equals the number of transactions upserted. |
| Collect.BatchesOk | se_collector/tools/json_to_db.py:40-61 | a run completes exactly when every file loads, the i-th batch being the i-th file's transactions |
| Collect.BatchesErrorStays | se_collector/tools/json_to_db.py:40-61 | a file that raises ends the run with the batches upserted before it |
| Collect.BatchesStep | se_collector/tools/json_to_db.py:40-61 | one more file either ends the run with its exception or adds its batch and count |
| JsonToDb.Index | se_collector/tools/json_to_db.py:27 | `v[n]` succeeds only on a long enough list or string |
| JsonToDb.Timestamp | se_collector/tools/json_to_db.py:27 | the first element decodes exactly when it is a string `strptime` accepts |
| JsonToDb.DecodeRow | se_collector/tools/json_to_db.py:27 | one list element converted left to right with the IndexError, TypeError or ValueError Python raises; characterised by `DecodeRowOk` |
| JsonToDb.DecodeRowOk | se_collector/tools/json_to_db.py:27 | a row decodes exactly when it is a list of at least four elements starting with a timestamp. The others are kept as they are. |
| JsonToDb.FirstCharNotTimestamp | se_collector/tools/json_to_db.py:25-27 | a string element never decodes as a row, since `v[0]` is one character |
| JsonToDb.DecodeRows | se_collector/tools/json_to_db.py:24-28 | a decoded list keeps its length |
| JsonToDb.DecodeValueOk | se_collector/tools/json_to_db.py:23-29 | a non-list value is kept. A list decodes exactly when every element is a row, each element decoding to its row. |
| JsonToDb.DecodeKeys | se_collector/tools/json_to_db.py:20-29 | the rebuilt dictionary is consistent with its key order |
| JsonToDb.DecodeObject | se_collector/tools/json_to_db.py:18-30 | the value `try_datetime` returns; characterised by `DecodeObjectOk` and `DecodeObjectError` |
| JsonToDb.DecodeObjectOk | se_collector/tools/json_to_db.py:18-30 | `try_datetime` succeeds exactly when every value decodes, giving a valid dictionary with the same keys in order |
| JsonToDb.DecodeObjectError | se_collector/tools/json_to_db.py:18-30 | a failing hook raises the exception of some value of the object |
| JsonToDb.DecodeList | se_collector/tools/json_to_db.py:24-28 | the inner loop builds `new_arr` as `DecodeRows` describes |
| JsonToDb.DecodeEntry | se_collector/tools/json_to_db.py:23-29 | one value is converted as `DecodeValue` describes |
| JsonToDb.TryDatetime | se_collector/tools/json_to_db.py:18-30 | the key loop builds `ret` as `DecodeObject` describes |
| JsonToDb.DecodeKeysSnoc | se_collector/tools/json_to_db.py:20-29 | one more key extends the decoded prefix or raises |
| JsonToDb.DecodeKeysErrorStays | se_collector/tools/json_to_db.py:20-29 | the exception at a key is the exception of the whole hook |
| JsonToDb.SplitKey | se_collector/tools/json_to_db.py:47-48 | the three `Share` fields cut from a key with Python's clamped slices; characterised by `SplitKeyRecovers` |
| JsonToDb.SplitKeyRecovers | se_collector/tools/json_to_db.py:47-48 | for `NAME (ISIN)` with a 12-character ISIN the slices give the stripped full key, the name and the ISIN |
| JsonToDb.OrderType | se_collector/tools/json_to_db.py:58 | the side letter is `S` exactly when `entry[3] == 0`, else `B`; a float side equals 0 when its value rounds to `0.0`, and `NaN` and the infinities never do |
| JsonToDb.UnderflowSideIsSell | se_collector/tools/json_to_db.py:58 | a side `1e-N` with N at least 359 underflows to `0.0` and is a sell |
| JsonToDb.TinySideIsBuy | se_collector/tools/json_to_db.py:58 | a side `1e-N` with N at most 300 is a nonzero double and a buy |
| JsonToDb.DigitlessSideIsBuy | se_collector/tools/json_to_db.py:58 | a float side without digits (`NaN`, `Infinity`, `-Infinity`) is a buy |
| JsonToDb.NaNSideIsBuy | se_collector/tools/json_to_db.py:58 | the side `NaN` is a buy, since `nan == 0` is false |
| JsonToDb.InfinitySideIsBuy | se_collector/tools/json_to_db.py:58 | the side `Infinity` is a buy |
| JsonToDb.MinusInfinitySideIsBuy | se_collector/tools/json_to_db.py:58 | the side `-Infinity` is a buy |
| JsonToDb.SideOneE400 | se_collector/tools/json_to_db.py:58 | the side `1e-400` is a sell |
| JsonValues.ZeroMantissa | se_collector/tools/json_to_db.py:58 | a number whose mantissa has a `0` and no other digit equals 0 |
| JsonValues.DigitlessNotZero | se_collector/tools/json_to_db.py:58 | a number text without digits (`NaN`, `Infinity`) is not equal to 0 |
| JsonValues.TinyPowerIsZero | se_collector/tools/json_to_db.py:58 | `1e-N` for N at least 359 reads as `0.0` |
| JsonValues.SmallPowerIsNotZero | se_collector/tools/json_to_db.py:58 | `1e-N` for N at most 300 reads as a nonzero float |
| JsonToDb.KeyTransactions | se_collector/tools/json_to_db.py:49-59 | one transaction per row, in order, numbered 0, 1, … with that row's fields |
| JsonToDb.FileTransactions | se_collector/tools/json_to_db.py:45-59 | a file's batch has one transaction per entry of the file |
| JsonToDb.LoadRows | se_collector/tools/json_to_db.py:49-59 | the row loop appends that share's transactions and adds one to the count per row |
| JsonToDb.LoadDocument | se_collector/tools/json_to_db.py:45-59 | the key loop builds the file's batch and counts its entries |
| JsonToDb.FileTransactionsSnoc | se_collector/tools/json_to_db.py:45-59 | one more key appends its share's transactions or raises |
| JsonToDb.FileTransactionsErrorStays | se_collector/tools/json_to_db.py:45-59 | an exception at a key ends the file |
| JsonToDb.LoadFile | se_collector/tools/json_to_db.py:41-59 | one file is decoded, then turned into its batch and counted |
| JsonToDb.Ingest | se_collector/tools/json_to_db.py:39-61 | the batches and count the file loop produces; characterised by `IngestStep` and `Collect.BatchesOk` |
| JsonToDb.LoadJsonFilesToDatabase | se_collector/tools/json_to_db.py:39-61 | the file loop upserts exactly the batches `Ingest` describes and ends with its count or exception |
| JsonToDb.IngestStep | se_collector/tools/json_to_db.py:40-61 | one more file either raises, ending the run with the earlier batches, or upserts its batch and adds its count |
| Pipeline.EncodedEntryDecodes | se_collector/tools/json_to_db.py:27 | a written entry decodes back into its timestamp and fields |
| Pipeline.EncodedRowsDecode | se_collector/tools/json_to_db.py:23-28 | a written share list decodes back into its rows |
| Pipeline.SideReadBack | se_collector/tools/json_to_db.py:58 | the written side 0 is stored `S` and 1 is stored `B` |
| Pipeline.KeyTransactionsReadBack | se_collector/tools/json_to_db.py:49-59 | one share's read-back rows give its entries as transactions numbered from 0 |
| Pipeline.FileTransactionsReadBack | se_collector/tools/json_to_db.py:45-59 | over any prefix of the keys the loader gives the expected transactions |
| Pipeline.WrittenFileLoads | se_collector/tools/json_to_db.py:41-59 | the file the reader writes loads without exception: every entry becomes one transaction, keys in order, rows numbered per share |
| Pipeline.WrittenFilesLoad | se_collector/tools/json_to_db.py:39-61 | a run over written files completes with one expected batch per file, counting every transaction |
| LsxCollector.InWorkingHours | se_collector/lsx/lsx_collector.py:54-60 | `_ts_in_working_hours`; characterised by `InWorkingHoursIff` |
| LsxCollector.InWorkingHoursIff | se_collector/lsx/lsx_collector.py:54-60 | in working hours exactly on ISO week days 1-5, from 07:30 to 23:00 inclusive, outside the non-trading days |
| LsxCollector.NonTradingDayClosed | se_collector/lsx/lsx_collector.py:60 | no time of a non-trading day is in working hours |
| LsxCollector.WeekendClosed | se_collector/lsx/lsx_collector.py:17 | Saturdays and Sundays are never in working hours |
| LsxCollector.TradingHoursInclusive | se_collector/lsx/lsx_collector.py:16 | 07:30 and 23:00 are inside; one microsecond outside either end is not |
| LsxCollector.EveningAndAfternoon | tests/test_lsx_collector.py:17-24 | on an ordinary week day 23:30 is outside and 15:30 inside |
| LsxCollector.ReferencePoint | se_collector/lsx/lsx_collector.py:73-74 | noon on the previous calendar day, one ordinal earlier. It raises exactly on the first date. |
| LsxCollector.Urls | se_collector/lsx/lsx_collector.py:73-76 | the feeds `_get_trades` fetches; characterised by `UrlsChoice` |
| LsxCollector.UrlsChoice | se_collector/lsx/lsx_collector.py:73-76 | today's feed always comes last. Yesterday's comes first exactly when yesterday was a week day 1-5 and not a non-trading day. |
| LsxCollector.NoYesterdayAfterWeekend | se_collector/lsx/lsx_collector.py:74-76 | on Sundays and Mondays only today's feed is fetched |
| LsxCollector.FromStr | se_collector/lsx/lsx_collector.py:29-31 | `TradeData.from_str` with its ValueError; characterised by `FromStrOk` and `FromStrWordPrice` |
| LsxCollector.FromStrOk | se_collector/lsx/lsx_collector.py:29-31 | a row converts exactly when its timestamp parses, `float()` accepts the price with every `,` turned into `.`, and its volume parses. Names are stripped, the price is that normalised text, and the other fields are parsed. |
| LsxCollector.FromStrWordPrice | se_collector/lsx/lsx_collector.py:31 | a price `abc` raises ValueError |
| LsxCollector.FromStrNormalised | se_collector/lsx/lsx_collector.py:29-31 | a row with stripped names and a price `float()` accepts, written with no `,`, keeps its names and price |
| LsxCollector.OneFeedRows | se_collector/lsx/lsx_collector.py:77-80 | one feed contributes exactly its rows |
| LsxCollector.BothFeedsRows | se_collector/lsx/lsx_collector.py:77-80 | two feeds give yesterday's rows then today's |
| LsxCollector.TodaysFeedRows | se_collector/lsx/lsx_collector.py:77-80 | today's feed alone gives its rows |
| LsxCollector.CollectedAllRows | se_collector/lsx/lsx_collector.py:77-80 | extending feed by feed converts every row once, in order, or raises the first failing row's exception |
| LsxCollector.CollectedErrorStays | se_collector/lsx/lsx_collector.py:77-80 | once a feed fails, later feeds do not matter |
| LsxCollector.Trades | se_collector/lsx/lsx_collector.py:70-81 | the trades `_get_trades` returns; characterised by `TradesRows` |
| LsxCollector.TradesRows | se_collector/lsx/lsx_collector.py:70-81 | the trades are the conversion of today's rows, preceded by yesterday's on a trading day. They exist exactly when every row converts, one trade per row. |
| LsxCollector.GetTrades | se_collector/lsx/lsx_collector.py:70-81 | the loop returns exactly `Trades` |

## Left out

- PDF text extraction (`PdfFileReader`, `extractText`) is not part of this model: a page is its list of lines.
- `float()` and `atof`: a price is kept as the text handed to `float()`, after the layout swap and the `en_US` delocalisation. The model checks that `float()` accepts that text (`Text.IsFloatText`) but does not compute its binary value. `setlocale` is fixed at `en_US`, as the code sets it.
- File handling in both tools is replaced by values: `glob`, the `.json` existence check, `open` and `json.dump`/`json.load`. A document is a list of pages, and a JSON file is its parsed top-level object. JSON text serialisation and parsing are not modelled; nested objects do not occur in these files.
- Multiprocessing, `print`, logging and the timing estimates are not modelled.
- `datetime.now()` is a parameter (`today`, `now`).
- The HTTP requests, the BeautifulSoup scraping of `_get_none_trading_days` and `_fetch_data` become parameters. The non-trading days are passed in. A feed is a function from URL to its CSV rows; a failed fetch is an empty list of rows.
- CSV parsing is not modelled, and with it the `KeyError` of a missing column.
- The database (`lsx_db_model.py`, `db_handler.py`) is not part of this model. `Share.get_or_create` is a function from the split key to a share id. The bulk upsert is the list of batches handed to it.
- `int()`, `float()` and the `\d` of `strptime` accept ASCII digits only in this model. Python also accepts other Unicode decimal digits; those inputs are not modelled.
- Kursblatt.EncodeDefault: only datetimes are written through it. The `None` that `default` returns for other objects is not modelled, because the dictionary holds no other non-JSON values.
- `cron_daily_download_jobs.py` and its copy of the download loop are not part of this model.
- Where a natural reading of a row differs from the code, the model follows the code:
  - Under US layout a price `5,00` reaches `float()` as `500`, since `en_US` drops `,` as a thousands separator (`KursblattExamples.PriceFiveHundred`).
  - A row `14:05:00`, `1.234`, `10,50`, `-` is a BUY priced `10,50`: only a `-` as the third line makes a sell (`Kursblatt.StepTradeRow`).
  - A row whose third line is ` - ` with spaces is probed as a sell for the layout, but the side test compares the line unstripped, so ` - ` is taken as the buy price. `float()` refuses it, and the document is abandoned with a ValueError (`Kursblatt.SpacedDashRefused`).
