/**
 * The loader of `json_to_db.py`: the decoder hook that turns the first
 * element of every trade row back into a datetime, and the loop that turns
 * the decoded dictionary into share transactions, numbering the rows of
 * each share and mapping the side to `S` or `B`.
 *
 * The database is not part of this model: `Share.get_or_create` is a
 * function from the split key to a share id, and the bulk upsert is the
 * list of transaction batches handed to it, one per file.
 */
module JsonToDb {
  import opened Wrappers
  import opened Text
  import opened Calendar
  import opened Strptime
  import opened Dicts
  import opened JsonValues
  import opened Collect

  /** The Python exceptions that end a load. */
  datatype IngestError =
    | TypeError   // indexing or iterating a value that is not a list or a string, or strptime of a non-string
    | IndexError  // a trade row with fewer than four elements
    | ValueError  // a timestamp `strptime` refuses

  /** A decoded trade row `[datetime, volume, value, side]`. */
  datatype Row = Row(ts: DateTime, volume: Json, value: Json, side: Json)

  /** A decoded dictionary value: a list becomes trade rows, anything else passes through. */
  datatype Decoded = Plain(json: Json) | Rows(rows: seq<Row>)

  // ---------------------------------------------------------------------
  // The decoder hook `try_datetime`

  /** `v[n]` for a decoded JSON value: lists and strings can be indexed, nothing else. */
  function Index(v: Json, n: nat): (r: Result<Json, IngestError>)
    ensures r.Ok? <==> (v.JArr? && n < |v.items|) || (v.JStr? && n < |v.s|)
    ensures r.Ok? && v.JArr? ==> r.value == v.items[n]
  {
    match v
    case JArr(items) => if n < |items| then Ok(items[n]) else Err(IndexError)
    case JStr(s) => if n < |s| then Ok(JStr([s[n]])) else Err(IndexError)
    case _ => Err(TypeError)
  }

  /** `datetime.strptime(j, '%Y-%m-%dT%H:%M:%S')`. */
  function Timestamp(j: Json): (r: Result<DateTime, IngestError>)
    ensures r.Ok? <==> j.JStr? && ParseIsoSeconds(j.s).Some?
    ensures r.Ok? ==> r.value == ParseIsoSeconds(j.s).value
  {
    match j
    case JStr(s) => (match ParseIsoSeconds(s) case None => Err(ValueError) case Some(dt) => Ok(dt))
    case _ => Err(TypeError)
  }

  /** A JSON list of at least four elements whose first is a timestamp string. */
  predicate IsRowArray(v: Json) {
    v.JArr? && |v.items| >= 4 && v.items[0].JStr? && ParseIsoSeconds(v.items[0].s).Some?
  }

  /** `[datetime.strptime(v[0], ...), v[1], v[2], v[3]]`, evaluated left to right. */
  function DecodeRow(v: Json): Result<Row, IngestError> {
    match Index(v, 0)
    case Err(e) => Err(e)
    case Ok(first) =>
      match Timestamp(first)
      case Err(e) => Err(e)
      case Ok(ts) =>
        match Index(v, 1)
        case Err(e) => Err(e)
        case Ok(volume) =>
          match Index(v, 2)
          case Err(e) => Err(e)
          case Ok(value) =>
            match Index(v, 3)
            case Err(e) => Err(e)
            case Ok(side) => Ok(Row(ts, volume, value, side))
  }

  /**
   * A row decodes exactly when it is a list of at least four elements that
   * starts with a timestamp; elements 1 to 3 are kept as they are and the
   * rest are dropped.
   */
  lemma DecodeRowOk(v: Json)
    ensures DecodeRow(v).Ok? <==> IsRowArray(v)
    ensures DecodeRow(v).Ok? ==> DecodeRow(v).value == Row(ParseIsoSeconds(v.items[0].s).value, v.items[1], v.items[2], v.items[3])
  {
    if v.JStr? {
      StringRowFails(v);
    }
  }

  /** `v[0]` of a string is a one-character string, so a string is never a row. */
  lemma StringRowFails(v: Json)
    requires v.JStr?
    ensures DecodeRow(v).Err?
  {
    FirstCharNotTimestamp(v);
  }

  /** `v[0]` of a string is one character, never a timestamp. */
  lemma FirstCharNotTimestamp(v: Json)
    ensures v.JStr? && |v.s| > 0 ==> ParseIsoSeconds([v.s[0]]).None?
  {
    if v.JStr? && |v.s| > 0 {
      ShortTextNotIso([v.s[0]]);
    }
  }

  /** The inner loop of `try_datetime` over a list value: every element decoded in order. */
  function DecodeRows(items: seq<Json>): (r: Result<seq<Row>, IngestError>)
    ensures r.Ok? ==> |r.value| == |items|
  {
    MapAll(DecodeRow, items)
  }

  /** `try_datetime` on one value: a list is decoded row by row, any other value is kept. */
  function DecodeValue(v: Json): Result<Decoded, IngestError> {
    if v.JArr? then
      match DecodeRows(v.items)
      case Err(e) => Err(e)
      case Ok(rows) => Ok(Rows(rows))
    else Ok(Plain(v))
  }

  /**
   * A list value decodes exactly when every element is a trade row, into
   * the rows element by element; any other value is kept as it is.
   */
  lemma DecodeValueOk(v: Json)
    ensures !v.JArr? ==> DecodeValue(v) == Ok(Plain(v))
    ensures v.JArr? ==> (DecodeValue(v).Ok? <==> forall n :: 0 <= n < |v.items| ==> IsRowArray(v.items[n]))
    ensures v.JArr? && DecodeValue(v).Ok? ==>
      && DecodeValue(v).value.Rows?
      && |DecodeValue(v).value.rows| == |v.items|
      && forall n :: 0 <= n < |v.items| ==>
           var e := v.items[n].items;
           DecodeValue(v).value.rows[n] == Row(ParseIsoSeconds(e[0].s).value, e[1], e[2], e[3])
  {
    if v.JArr? {
      MapAllOk(DecodeRow, v.items);
      forall n | 0 <= n < |v.items| ensures DecodeRow(v.items[n]).Ok? <==> IsRowArray(v.items[n]) {
        DecodeRowOk(v.items[n]);
      }
      if DecodeValue(v).Ok? {
        forall n | 0 <= n < |v.items|
          ensures DecodeValue(v).value.rows[n] == DecodeRow(v.items[n]).value
        {
        }
      }
    }
  }

  /** The outer loop of `try_datetime` over the keys `ks`. */
  function DecodeKeys(d: Dict<Json>, ks: seq<string>): (r: Result<Dict<Decoded>, IngestError>)
    requires KeysOf(d, ks)
    ensures r.Ok? ==> KeysOf(r.value, r.value.keys)
  {
    MapValues(DecodeValue, d, ks)
  }

  /** `json.load(f, cls=JsonDateTimeDecoder)` of a parsed top-level object. */
  function DecodeObject(d: Dict<Json>): (r: Result<Dict<Decoded>, IngestError>)
    requires Valid(d)
  {
    DecodeKeys(d, d.keys)
  }

  /**
   * `try_datetime` keeps the keys and their order, and decodes each value
   * on its own; it succeeds exactly when every value decodes.
   */
  lemma DecodeObjectOk(d: Dict<Json>)
    requires Valid(d)
    ensures DecodeObject(d).Ok? <==> forall i :: 0 <= i < |d.keys| ==> DecodeValue(d.items[d.keys[i]]).Ok?
    ensures DecodeObject(d).Ok? ==>
      && Valid(DecodeObject(d).value)
      && DecodeObject(d).value.keys == d.keys
      && DecodeObject(d).value.items.Keys == d.items.Keys
      && forall k :: k in d.items ==> Ok(DecodeObject(d).value.items[k]) == DecodeValue(d.items[k])
  {
    MapValuesOk(DecodeValue, d, d.keys);
    MapValuesKeys(DecodeValue, d, d.keys);
  }

  /** When `try_datetime` raises, it raises the exception of the first value that fails. */
  lemma DecodeObjectError(d: Dict<Json>)
    requires Valid(d) && DecodeObject(d).Err?
    ensures exists i :: 0 <= i < |d.keys| && DecodeValue(d.items[d.keys[i]]) == Err(DecodeObject(d).error)
                        && forall m :: 0 <= m < i ==> DecodeValue(d.items[d.keys[m]]).Ok?
  {
    MapValuesError(DecodeValue, d, d.keys);
  }

  /** The inner loop of `try_datetime`: `new_arr` built row by row from a list value. */
  method DecodeList(items: seq<Json>) returns (r: Result<seq<Row>, IngestError>)
    ensures r == DecodeRows(items)
  {
    var newArr: seq<Row> := [];
    for q := 0 to |items|
      invariant MapAll(DecodeRow, items[..q]) == Ok(newArr)
    {
      MapAllSnoc(DecodeRow, items, q);
      var row := DecodeRow(items[q]);
      if row.Err? {
        MapAllErrorStays(DecodeRow, items, q + 1);
        return Err(row.error);
      }
      newArr := newArr + [row.value];
    }
    assert items[..|items|] == items;
    return Ok(newArr);
  }

  /** The body of `try_datetime`'s loop for one value: `new_arr` for a list, the value itself otherwise. */
  method DecodeEntry(value: Json) returns (decoded: Result<Decoded, IngestError>)
    ensures decoded == DecodeValue(value)
  {
    if value.JArr? {
      var rows := DecodeList(value.items);
      decoded := if rows.Err? then Err(rows.error) else Ok(Rows(rows.value));
    } else {
      decoded := Ok(Plain(value));
    }
  }

  /** `JsonDateTimeDecoder.try_datetime`: builds `ret` key by key. */
  method TryDatetime(d: Dict<Json>) returns (r: Result<Dict<Decoded>, IngestError>)
    requires Valid(d)
    ensures r == DecodeObject(d)
  {
    var ret: Dict<Decoded> := Empty();
    for p := 0 to |d.keys|
      invariant DecodeKeys(d, d.keys[..p]) == Ok(ret)
    {
      var key := d.keys[p];
      var decoded := DecodeEntry(d.items[key]);
      DecodeKeysSnoc(d, p);
      if decoded.Err? {
        DecodeKeysErrorStays(d, p + 1);
        return Err(decoded.error);
      }
      ret := Put(ret, key, decoded.value);
    }
    assert d.keys[..|d.keys|] == d.keys;
    return Ok(ret);
  }

  /** One more key of `try_datetime`'s loop. */
  lemma DecodeKeysSnoc(d: Dict<Json>, p: nat)
    requires Valid(d) && p < |d.keys|
    ensures KeysOf(d, d.keys[..p])
    ensures DecodeKeys(d, d.keys[..p + 1])
         == match DecodeKeys(d, d.keys[..p])
            case Err(e) => Err(e)
            case Ok(ret) => (match DecodeValue(d.items[d.keys[p]]) case Err(e) => Err(e) case Ok(w) => Ok(Put(ret, d.keys[p], w)))
  {
    MapValuesSnoc(DecodeValue, d, d.keys, p);
  }

  /** An exception at key `p` is the exception of the whole object. */
  lemma DecodeKeysErrorStays(d: Dict<Json>, j: nat)
    requires Valid(d) && j <= |d.keys|
    requires KeysOf(d, d.keys[..j]) && DecodeKeys(d, d.keys[..j]).Err?
    ensures DecodeObject(d) == DecodeKeys(d, d.keys[..j])
  {
    MapValuesErrorStays(DecodeValue, d, d.keys, j);
  }

  // ---------------------------------------------------------------------
  // The transactions `load_json_files_to_database` builds

  /** The three columns `Share.get_or_create` is called with. */
  datatype ShareKey = ShareKey(fullName: string, name: string, isin: string)

  /** `k.strip()`, `k[:-14].strip()` and `k[-13:-1].strip()`. */
  function SplitKey(k: string): ShareKey {
    ShareKey(Strip(k), Strip(PySlice(k, 0, -14)), Strip(PySlice(k, -13, -1)))
  }

  /** For a key `NAME (ISIN)` with a twelve-character ISIN the slices recover both parts. */
  lemma SplitKeyRecovers(name: string, isin: string)
    requires |isin| == 12
    ensures var key := SplitKey(name + " (" + isin + ")");
            && key.fullName == Strip(name + " (" + isin + ")")
            && key.name == Strip(name)
            && key.isin == Strip(isin)
  {
    var k := name + " (" + isin + ")";
    assert PySlice(k, 0, -14) == name + " ";
    assert PySlice(k, -13, -1) == isin;
    StripTrailingSpace(name, ' ');
  }

  /** One `ShareTransaction` row: the side is kept as its `order_type` letter. */
  datatype Transaction = Transaction(shareId: int, ts: DateTime, seqNo: nat, volume: Json, value: Json, orderType: char)

  /** `"S" if entry[3] == 0 else "B"`. */
  function OrderType(side: Json): (c: char)
    ensures c == 'S' <==> EqualsZero(side)
    ensures c == 'S' || c == 'B'
  {
    if EqualsZero(side) then 'S' else 'B'
  }

  /** A side written as a float that underflows, such as `1e-400`, equals 0 and is a sell. */
  lemma UnderflowSideIsSell(e: string)
    requires |e| > 0 && AllDigits(e) && DigitsValue(e) >= 359
    ensures OrderType(JFloat("1e-" + e)) == 'S'
  {
    TinyPowerIsZero(e);
  }

  /** A side written as a small but representable float, such as `1e-300`, is a buy. */
  lemma TinySideIsBuy(e: string)
    requires |e| > 0 && AllDigits(e) && DigitsValue(e) <= 300
    ensures OrderType(JFloat("1e-" + e)) == 'B'
  {
    SmallPowerIsNotZero(e);
  }

  /** A float side without digits (`NaN`, `Infinity`, `-Infinity`) is not equal to 0, so it is a buy. */
  lemma DigitlessSideIsBuy(t: string)
    requires forall k :: 0 <= k < |t| ==> !IsDigit(t[k])
    ensures OrderType(JFloat(t)) == 'B'
  {
    DigitlessNotZero(t);
  }

  /** `NaN`, which `json.load` accepts by default, is a buy. */
  lemma NaNSideIsBuy()
    ensures OrderType(JFloat("NaN")) == 'B'
  {
    var t := "NaN";
    assert forall k :: 0 <= k < |t| ==> t[k] in {'N', 'a'};
    DigitlessSideIsBuy(t);
  }

  /** `Infinity` is a buy. */
  lemma InfinitySideIsBuy()
    ensures OrderType(JFloat("Infinity")) == 'B'
  {
    var t := "Infinity";
    assert forall k :: 0 <= k < |t| ==> t[k] in {'I', 'n', 'f', 'i', 't', 'y'};
    DigitlessSideIsBuy(t);
  }

  /** `-Infinity` is a buy. */
  lemma MinusInfinitySideIsBuy()
    ensures OrderType(JFloat("-Infinity")) == 'B'
  {
    var t := "-Infinity";
    assert forall k :: 0 <= k < |t| ==> t[k] in {'-', 'I', 'n', 'f', 'i', 't', 'y'};
    DigitlessSideIsBuy(t);
  }

  /** `1e-400` in particular. */
  lemma SideOneE400()
    ensures OrderType(JFloat("1e-400")) == 'S'
  {
    var e := "400";
    assert e[..2] == "40" && e[..2][..1] == "4" && e[..2][..1][..0] == [];
    assert DigitsValue("4") == 4;
    assert DigitsValue("40") == 40;
    assert AllDigits(e) && DigitsValue(e) == 400;
    assert "1e-400" == "1e-" + e;
    UnderflowSideIsSell(e);
  }

  /**
   * `for entry in result.get(k)`: the rows of a list value; an empty string
   * iterates over nothing; a non-empty string yields one-character entries
   * whose `entry[1]` raises IndexError; other values are not iterable.
   */
  function Entries(v: Decoded): (r: Result<seq<Row>, IngestError>)
    ensures v.Rows? ==> r == Ok(v.rows)
  {
    match v
    case Rows(rows) => Ok(rows)
    case Plain(j) =>
      if j.JStr? then (if j.s == [] then Ok([]) else Err(IndexError)) else Err(TypeError)
  }

  /** The transactions of one share, numbered from 0 in list order. */
  function KeyTransactions(id: int, rows: seq<Row>): (t: seq<Transaction>)
    ensures |t| == |rows|
    ensures forall n :: 0 <= n < |rows| ==>
      t[n] == Transaction(id, rows[n].ts, n, rows[n].volume, rows[n].value, OrderType(rows[n].side))
  {
    if rows == [] then []
    else
      var last := rows[|rows| - 1];
      KeyTransactions(id, rows[..|rows| - 1])
        + [Transaction(id, last.ts, |rows| - 1, last.volume, last.value, OrderType(last.side))]
  }

  /** The number of entries under the keys `ks`. */
  function EntryCount(doc: Dict<Decoded>, ks: seq<string>): nat
    requires KeysOf(doc, ks)
  {
    if ks == [] then 0
    else
      var rows := Entries(doc.items[ks[|ks| - 1]]);
      EntryCount(doc, ks[..|ks| - 1]) + (if rows.Ok? then |rows.value| else 0)
  }

  /**
   * The loop over the keys `ks` of a decoded file: each share's
   * transactions in key order, or the exception of the first value that
   * cannot be iterated as rows.
   */
  function FileTransactions(doc: Dict<Decoded>, ks: seq<string>, shareId: ShareKey -> int): (r: Result<seq<Transaction>, IngestError>)
    requires KeysOf(doc, ks)
    ensures r.Ok? ==> |r.value| == EntryCount(doc, ks)
  {
    if ks == [] then Ok([])
    else
      var key := ks[|ks| - 1];
      match FileTransactions(doc, ks[..|ks| - 1], shareId)
      case Err(e) => Err(e)
      case Ok(bulk) =>
        match Entries(doc.items[key])
        case Err(e) => Err(e)
        case Ok(rows) => Ok(bulk + KeyTransactions(shareId(SplitKey(key)), rows))
  }

  /** One file: decoded, then turned into the batch handed to the bulk upsert. */
  function FileLoad(d: Dict<Json>, shareId: ShareKey -> int): Result<seq<Transaction>, IngestError>
    requires Valid(d)
  {
    match DecodeObject(d)
    case Err(e) => Err(e)
    case Ok(doc) => FileTransactions(doc, doc.keys, shareId)
  }

  predicate AllValid(files: seq<Dict<Json>>) {
    forall i :: 0 <= i < |files| ==> Valid(files[i])
  }

  /** The load of one file, as a function of the file alone. */
  function Loader(shareId: ShareKey -> int): Dict<Json> --> Result<seq<Transaction>, IngestError> {
    d requires Valid(d) => FileLoad(d, shareId)
  }

  /**
   * `load_json_files_to_database`: the files in order, one upserted batch
   * per file; the first exception ends the run, and the batches of the
   * files before it have been upserted already.
   */
  function Ingest(files: seq<Dict<Json>>, shareId: ShareKey -> int): Run<Transaction, IngestError>
    requires AllValid(files)
  {
    Batches(Loader(shareId), files)
  }

  /** The inner loop over one share's rows: `seq` counts from 0, every row adds one transaction and one to the count. */
  method LoadRows(id: int, rows: seq<Row>, bulk0: seq<Transaction>, count0: nat)
    returns (bulk: seq<Transaction>, count: nat)
    ensures bulk == bulk0 + KeyTransactions(id, rows)
    ensures count == count0 + |rows|
  {
    bulk := bulk0;
    count := count0;
    var seqNo := 0;
    for q := 0 to |rows|
      invariant seqNo == q && count == count0 + q
      invariant bulk == bulk0 + KeyTransactions(id, rows[..q])
    {
      var entry := rows[q];
      count := count + 1;
      assert rows[..q + 1][..q] == rows[..q];
      bulk := bulk + [Transaction(id, entry.ts, seqNo, entry.volume, entry.value, OrderType(entry.side))];
      seqNo := seqNo + 1;
    }
    assert rows[..|rows|] == rows;
  }

  /** The loop over the keys of one decoded file, filling the batch for the bulk upsert. */
  method LoadDocument(doc: Dict<Decoded>, shareId: ShareKey -> int, count0: nat)
    returns (r: Result<seq<Transaction>, IngestError>, count: nat)
    requires KeysOf(doc, doc.keys)
    ensures r == FileTransactions(doc, doc.keys, shareId)
    ensures r.Ok? ==> count == count0 + |r.value|
  {
    var bulk: seq<Transaction> := [];
    count := count0;
    for p := 0 to |doc.keys|
      invariant FileTransactions(doc, doc.keys[..p], shareId) == Ok(bulk)
      invariant count == count0 + |bulk|
    {
      var k := doc.keys[p];
      var id := shareId(SplitKey(k));
      var entries := Entries(doc.items[k]);
      FileTransactionsSnoc(doc, doc.keys, shareId, p);
      if entries.Err? {
        FileTransactionsErrorStays(doc, doc.keys, shareId, p + 1);
        return Err(entries.error), count;
      }
      bulk, count := LoadRows(id, entries.value, bulk, count);
    }
    assert doc.keys[..|doc.keys|] == doc.keys;
    return Ok(bulk), count;
  }

  lemma FileTransactionsSnoc(doc: Dict<Decoded>, ks: seq<string>, shareId: ShareKey -> int, p: nat)
    requires KeysOf(doc, ks) && p < |ks|
    ensures KeysOf(doc, ks[..p])
    ensures FileTransactions(doc, ks[..p + 1], shareId)
         == match FileTransactions(doc, ks[..p], shareId)
            case Err(e) => Err(e)
            case Ok(bulk) =>
              (match Entries(doc.items[ks[p]])
               case Err(e) => Err(e)
               case Ok(rows) => Ok(bulk + KeyTransactions(shareId(SplitKey(ks[p])), rows)))
  {
    assert ks[..p + 1][..p] == ks[..p];
  }

  lemma {:induction false} FileTransactionsErrorStays(doc: Dict<Decoded>, ks: seq<string>, shareId: ShareKey -> int, j: nat)
    requires KeysOf(doc, ks) && j <= |ks| && FileTransactions(doc, ks[..j], shareId).Err?
    ensures FileTransactions(doc, ks, shareId) == FileTransactions(doc, ks[..j], shareId)
    decreases |ks| - j
  {
    if j < |ks| {
      assert ks[..j + 1][..j] == ks[..j];
      FileTransactionsErrorStays(doc, ks, shareId, j + 1);
    } else {
      assert ks[..j] == ks;
    }
  }

  /** One file: decoded by `try_datetime`, then turned into its batch while counting entries. */
  method LoadFile(d: Dict<Json>, shareId: ShareKey -> int, count0: nat)
    returns (r: Result<seq<Transaction>, IngestError>, count: nat)
    requires Valid(d)
    ensures r == FileLoad(d, shareId)
    ensures r.Ok? ==> count == count0 + |r.value|
  {
    var result := TryDatetime(d);
    if result.Err? {
      return Err(result.error), count0;
    }
    r, count := LoadDocument(result.value, shareId, count0);
  }

  /**
   * `load_json_files_to_database`: reads the files in order, hands one
   * batch per file to the bulk upsert and counts the entries; returns the
   * batches upserted and the count, or the exception that ended the run.
   */
  method LoadJsonFilesToDatabase(files: seq<Dict<Json>>, shareId: ShareKey -> int)
    returns (upserted: seq<seq<Transaction>>, r: Result<nat, IngestError>)
    requires AllValid(files)
    ensures Run(upserted, r) == Ingest(files, shareId)
  {
    var count: nat := 0;
    upserted := [];
    for i := 0 to |files|
      invariant Ingest(files[..i], shareId) == Run(upserted, Ok(count))
    {
      var bulk, count' := LoadFile(files[i], shareId, count);
      IngestStep(files, shareId, i, upserted, count, bulk, count');
      if bulk.Err? {
        return upserted, Err(bulk.error);
      }
      count := count';
      upserted := upserted + [bulk.value];
    }
    assert files[..|files|] == files;
    return upserted, Ok(count);
  }

  /** One more file of a run that has upserted `upserted` and counted `count` so far. */
  lemma IngestStep(files: seq<Dict<Json>>, shareId: ShareKey -> int, i: nat, upserted: seq<seq<Transaction>>, count: nat,
                   bulk: Result<seq<Transaction>, IngestError>, count': nat)
    requires AllValid(files) && i < |files| && bulk == FileLoad(files[i], shareId)
    requires Ingest(files[..i], shareId) == Run(upserted, Ok(count))
    requires bulk.Ok? ==> count' == count + |bulk.value|
    ensures AllValid(files[..i + 1])
    ensures bulk.Err? ==> Ingest(files, shareId) == Run(upserted, Err(bulk.error))
    ensures bulk.Ok? ==> Ingest(files[..i + 1], shareId) == Run(upserted + [bulk.value], Ok(count'))
  {
    BatchesStep(Loader(shareId), files, i, upserted, count, bulk, count');
  }
}
