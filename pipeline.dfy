/**
 * The two halves of the collector together: the JSON file `pdf_to_json.py`
 * writes for a scanned dictionary is read back by `json_to_db.py` into one
 * share transaction per scanned entry, numbered within its share, with the
 * side `0` stored as `S` and `1` as `B`.
 */
module Pipeline {
  import opened Wrappers
  import opened Calendar
  import opened Strptime
  import opened Dicts
  import opened JsonValues
  import opened Collect
  import opened Kursblatt
  import opened JsonToDb

  /** The `order_type` letter stored for a scanned side: `S` for a sell, `B` otherwise. */
  function Side(orderType: int): char {
    if orderType == SELL then 'S' else 'B'
  }

  /** The row `try_datetime` gives back for one written entry. */
  function ReadBack(e: Entry): Row {
    Row(e.ts, JInt(e.volume), JFloat(e.value), JInt(e.orderType))
  }

  /** The rows given back for a list of written entries. */
  function ReadBackAll(rows: seq<Entry>): (r: seq<Row>)
    ensures |r| == |rows|
  {
    seq(|rows|, n requires 0 <= n < |rows| => ReadBack(rows[n]))
  }

  /** The transactions of one share: each entry once, numbered from 0 in scan order. */
  function ShareTransactions(id: int, rows: seq<Entry>): (t: seq<Transaction>)
    ensures |t| == |rows|
  {
    seq(|rows|, n requires 0 <= n < |rows| =>
      Transaction(id, rows[n].ts, n, JInt(rows[n].volume), JFloat(rows[n].value), Side(rows[n].orderType)))
  }

  /** The transactions expected for the keys `ks` of a scanned dictionary, share after share. */
  function ExpectedKeys(l: Ledger, ks: seq<string>, shareId: ShareKey -> int): seq<Transaction>
    requires KeysOf(l, ks)
  {
    if ks == [] then []
    else
      var k := ks[|ks| - 1];
      ExpectedKeys(l, ks[..|ks| - 1], shareId) + ShareTransactions(shareId(SplitKey(k)), l.items[k])
  }

  /** The transactions expected for a whole scanned dictionary. */
  function Expected(l: Ledger, shareId: ShareKey -> int): seq<Transaction>
    requires Valid(l)
  {
    ExpectedKeys(l, l.keys, shareId)
  }

  /** A written well-formed entry is a trade row, and decodes back into its fields. */
  lemma EncodedEntryDecodes(e: Entry)
    requires WellFormed(e)
    ensures DecodeRow(EncodeEntry(e)) == Ok(ReadBack(e))
  {
    EncodeDefaultRoundTrip(e.ts);
    DecodeRowOk(EncodeEntry(e));
  }

  /** A written list of well-formed entries decodes into their rows, timestamps restored. */
  lemma EncodedRowsDecode(rows: seq<Entry>)
    requires forall n :: 0 <= n < |rows| ==> WellFormed(rows[n]) && ValidDateTime(rows[n].ts)
    ensures DecodeValue(EncodeRows(rows)) == Ok(Rows(ReadBackAll(rows)))
  {
    var items := EncodeRows(rows).items;
    forall n | 0 <= n < |rows|
      ensures DecodeRow(items[n]) == Ok(ReadBackAll(rows)[n])
    {
      assert items[n] == EncodeEntry(rows[n]);
      EncodedEntryDecodes(rows[n]);
    }
    MapAllOk(DecodeRow, items);
    assert DecodeRows(items).value == ReadBackAll(rows);
  }

  /** The side letter `json_to_db.py` derives from a written side is the one the scan meant. */
  lemma SideReadBack(o: int)
    ensures OrderType(JInt(o)) == Side(o)
  {
  }

  /** One share's rows, read back, give that share's expected transactions. */
  lemma KeyTransactionsReadBack(id: int, rows: seq<Entry>)
    ensures KeyTransactions(id, ReadBackAll(rows)) == ShareTransactions(id, rows)
  {
    var t := KeyTransactions(id, ReadBackAll(rows));
    forall n | 0 <= n < |rows|
      ensures t[n] == ShareTransactions(id, rows)[n]
    {
      SideReadBack(rows[n].orderType);
    }
  }

  /** Over any prefix of the keys, the loop of `load_json_files_to_database` gives the expected transactions. */
  lemma {:induction false} FileTransactionsReadBack(l: Ledger, doc: Dict<Decoded>, ks: seq<string>, shareId: ShareKey -> int)
    requires KeysOf(l, ks) && KeysOf(doc, ks)
    requires forall i :: 0 <= i < |ks| ==> doc.items[ks[i]] == Rows(ReadBackAll(l.items[ks[i]]))
    ensures FileTransactions(doc, ks, shareId) == Ok(ExpectedKeys(l, ks, shareId))
  {
    if ks != [] {
      var front := ks[..|ks| - 1];
      var k := ks[|ks| - 1];
      assert forall i :: 0 <= i < |front| ==> front[i] == ks[i];
      FileTransactionsReadBack(l, doc, front, shareId);
      KeyTransactionsReadBack(shareId(SplitKey(k)), l.items[k]);
    }
  }

  /**
   * The file written for a scanned dictionary of well-formed entries loads
   * without an exception, into every entry as a transaction: keys in
   * order, rows numbered from 0 within each share, sides as letters.
   */
  lemma WrittenFileLoads(l: Ledger, shareId: ShareKey -> int)
    requires Valid(l) && AllWellFormed(l)
    ensures Dated(l) && Valid(EncodeLedger(l))
    ensures FileLoad(EncodeLedger(l), shareId) == Ok(Expected(l, shareId))
  {
    var d := EncodeLedger(l);
    forall k | k in d.items
      ensures DecodeValue(d.items[k]) == Ok(Rows(ReadBackAll(l.items[k])))
    {
      assert forall n :: 0 <= n < |l.items[k]| ==> WellFormed(l.items[k][n]);
      EncodedRowsDecode(l.items[k]);
    }
    DecodeObjectOk(d);
    var doc := DecodeObject(d).value;
    FileTransactionsReadBack(l, doc, l.keys, shareId);
  }

  /**
   * A run over the files the scanner wrote for a list of dictionaries ends
   * without an exception, upserts one batch per file with that file's
   * expected transactions, and counts every transaction.
   */
  lemma WrittenFilesLoad(ledgers: seq<Ledger>, files: seq<Dict<Json>>, shareId: ShareKey -> int)
    requires |files| == |ledgers|
    requires forall i :: 0 <= i < |ledgers| ==> Valid(ledgers[i]) && AllWellFormed(ledgers[i])
    requires forall i :: 0 <= i < |ledgers| ==> Dated(ledgers[i]) && files[i] == EncodeLedger(ledgers[i])
    ensures AllValid(files)
    ensures Ingest(files, shareId).outcome == Ok(Total(Ingest(files, shareId).batches))
    ensures |Ingest(files, shareId).batches| == |files|
    ensures forall i :: 0 <= i < |files| ==>
      Ingest(files, shareId).batches[i] == Expected(ledgers[i], shareId)
  {
    forall i | 0 <= i < |ledgers|
      ensures Valid(files[i])
      ensures Loader(shareId)(files[i]) == Ok(Expected(ledgers[i], shareId))
    {
      WrittenFileLoads(ledgers[i], shareId);
    }
    BatchesOk(Loader(shareId), files);
    BatchesCount(Loader(shareId), files);
  }
}
