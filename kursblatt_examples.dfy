/**
 * A one-page Kursblatt worked through the scanner: the single
 * page `Datum: 01.03.2021 / ACME (DE000ACME001) / 09:00:00 100 5,00 +`
 * and the date and time texts it contains.
 */
module KursblattExamples {
  import opened Wrappers
  import opened Text
  import opened Calendar
  import opened Strptime
  import opened Dicts
  import opened Kursblatt

  /** Two zero-padded digits are the tens digit and the units digit. */
  lemma PaddedTwo(v: nat, t: string)
    requires v < 100 && t == [DigitChar(v / 10), DigitChar(v % 10)]
    ensures Padded(v, 2) == t
  {
    assert v / 10 / 10 == 0 && v / 10 % 10 == v / 10;
  }

  /** Four zero-padded digits, most significant first. */
  lemma PaddedFour(v: nat, t: string)
    requires v < 10000
    requires t == [DigitChar(v / 1000), DigitChar(v / 100 % 10), DigitChar(v / 10 % 10), DigitChar(v % 10)]
    ensures Padded(v, 4) == t
  {
    PaddedTwo(v / 100, t[..2]);
    assert v / 10 / 10 == v / 100 && v / 100 / 10 == v / 1000 && v / 10 % 10 == v / 10 % 10;
    assert Padded(v / 10, 3) == t[..3];
  }

  /** Three fields joined by two separators, written out. */
  lemma Joined(a: string, b: string, c: string, sep: char, s: string)
    requires |a| == 2 && |b| == 2 && |s| == |a| + |b| + |c| + 2
    requires s[..2] == a && s[2] == sep && s[3..5] == b && s[5] == sep && s[6..] == c
    ensures a + ([sep] + (b + ([sep] + c))) == s
  {
  }

  lemma DmyExample(s: string)
    requires s == "01.03.2021"
    ensures ParseDmy(s) == Some(Date(2021, 3, 1))
  {
    DmyAt(s, Date(2021, 3, 1), "01", "03", "2021");
  }

  /** A date whose three fields are written `dd`, `mm` and `yyyy` in `s`. */
  lemma DmyAt(s: string, d: Date, dd: string, mm: string, yyyy: string)
    requires ValidDate(d)
    requires dd == [DigitChar(d.day / 10), DigitChar(d.day % 10)]
    requires mm == [DigitChar(d.month / 10), DigitChar(d.month % 10)]
    requires yyyy == [DigitChar(d.year / 1000), DigitChar(d.year / 100 % 10), DigitChar(d.year / 10 % 10), DigitChar(d.year % 10)]
    requires |s| == 10 && s[..2] == dd && s[2] == '.' && s[3..5] == mm && s[5] == '.' && s[6..] == yyyy
    ensures ParseDmy(s) == Some(d)
  {
    DmyRoundTrip(d);
    PaddedTwo(d.day, dd);
    PaddedTwo(d.month, mm);
    PaddedFour(d.year, yyyy);
    Joined(dd, mm, yyyy, '.', s);
  }

  lemma HmsExample(s: string)
    requires s == "09:00:00"
    ensures ParseHms(s) == Some(Time(9, 0, 0, 0))
  {
    HmsAt(s, Time(9, 0, 0, 0), "09", "00", "00");
  }

  lemma HmsAfternoon(s: string)
    requires s == "14:05:00"
    ensures ParseHms(s) == Some(Time(14, 5, 0, 0))
  {
    HmsAt(s, Time(14, 5, 0, 0), "14", "05", "00");
  }

  /** A time whose three fields are written `hh`, `mm` and `ss` in `s`. */
  lemma HmsAt(s: string, t: Time, hh: string, mm: string, ss: string)
    requires ValidTime(t) && t.micro == 0
    requires hh == [DigitChar(t.hour / 10), DigitChar(t.hour % 10)]
    requires mm == [DigitChar(t.minute / 10), DigitChar(t.minute % 10)]
    requires ss == [DigitChar(t.second / 10), DigitChar(t.second % 10)]
    requires |s| == 8 && s[..2] == hh && s[2] == ':' && s[3..5] == mm && s[5] == ':' && s[6..] == ss
    ensures ParseHms(s) == Some(t)
  {
    HmsRoundTrip(t);
    PaddedTwo(t.hour, hh);
    PaddedTwo(t.minute, mm);
    PaddedTwo(t.second, ss);
    Joined(hh, mm, ss, ':', s);
  }

  const ACME: string := "ACME (DE000ACME001)"
  const ACME_PAGE: seq<string> := ["Datum: 01.03.2021", ACME, "09:00:00", "100", "5,00", "+"]

  lemma AcmeHeader()
    ensures IsShareHeader(ACME) && Strip(ACME) == ACME
  {
    assert IsShareHeaderAt(ACME, 5);
    StripUnchanged(ACME);
  }

  lemma StripDate()
    ensures Strip(" 01.03.2021") == "01.03.2021"
  {
    StripUnchanged("01.03.2021");
    assert " 01.03.2021"[1..] == "01.03.2021";
  }

  lemma DateLine()
    ensures IsDateMarker("Datum: 01.03.2021")
    ensures ParseDmy(Strip("Datum: 01.03.2021"[6..])) == Some(Date(2021, 3, 1))
  {
    var t := "Datum: 01.03.2021";
    assert t[..6] == DATE_MARKER;
    assert t[6..] == " 01.03.2021";
    StripDate();
    DmyExample("01.03.2021");
  }

  lemma AcmeDate(data: seq<string>, i: nat, st: ScanState)
    requires i < |data| && data[i] == "Datum: 01.03.2021"
    ensures Step(data, i, st) == Ok(Move(1, st.(date := Date(2021, 3, 1)), None))
  {
    DateLine();
    StepDateMarker(data, i, st);
  }

  /** `int("100")` under either layout. */
  lemma VolumeHundred()
    ensures ParseVolume("100", false) == Some(100)
  {
    assert Delocalize("100") == "100" by { assert ',' !in "100"; }
    HundredDigits();
    PyIntDigits("100");
  }

  lemma HundredDigits()
    ensures AllDigits("100") && DigitsValue("100") == 100
  {
    assert "100"[..2] == "10" && "10"[..1] == "1";
  }

  /** `atof("5,00")` under `en_US` hands `float()` the text "500", which it accepts. */
  lemma PriceFiveHundred()
    ensures PriceText("5,00", false) == "500" && IsFloatText("500")
  {
    assert "5,00"[1..] == ",00" && ",00"[1..] == "00";
    assert Remove("00", ',') == "00" by { assert ',' !in "00"; }
    DigitsAreFloat("500");
  }

  lemma TimeNine()
    ensures IsTimeToken("09:00:00") && ParseHms(Strip("09:00:00")) == Some(Time(9, 0, 0, 0))
  {
    StripUnchanged("09:00:00");
    HmsExample("09:00:00");
  }

  /** The probe of a buy row is its price; `5,00` has a digit four from its end. */
  lemma PriceProbe(data: seq<string>, i: nat)
    requires i + 2 < |data| && data[i + 2] == "5,00"
    ensures DetectLocale(data, i) == Ok(false)
  {
    StripUnchanged("5,00");
    assert LocaleProbe(data, i) == i + 2;
    assert data[i + 2][0] == '5';
  }

  /**
   * The row `09:00:00 100 5,00 +` as the first trade row of a
   * document: the `5` four characters from the end makes it the `en_US`
   * layout, so the comma is read as a thousands separator and dropped.
   */
  lemma FirstRowUs(data: seq<string>, i: nat, st: ScanState)
    requires i + 3 < |data|
    requires data[i] == "09:00:00" && data[i + 1] == "100" && data[i + 2] == "5,00" && data[i + 3] == "+"
    requires st.mustReplace.None?
    ensures Step(data, i, st)
         == Ok(Move(4, st.(mustReplace := Some(false)),
                    Some(Entry(DateTime(st.date, Time(9, 0, 0, 0)), 100, "500", BUY))))
  {
    StepDataRow(data, i, st);
    FirstRowData(data, i, st);
  }

  lemma FirstRowData(data: seq<string>, i: nat, st: ScanState)
    requires i + 3 < |data|
    requires data[i] == "09:00:00" && data[i + 1] == "100" && data[i + 2] == "5,00"
    requires st.mustReplace.None?
    ensures IsTimeToken(data[i])
    ensures DataRow(data, i, st)
         == Ok(Move(4, st.(mustReplace := Some(false)),
                    Some(Entry(DateTime(st.date, Time(9, 0, 0, 0)), 100, "500", BUY))))
  {
    TimeNine();
    PriceProbe(data, i);
    VolumeHundred();
    PriceFiveHundred();
    BuyRowAccepted(data, i, st, false, Time(9, 0, 0, 0), 100);
  }

  /** A buy row whose time, price and volume convert, with the locale decided by `swap`. */
  lemma BuyRowAccepted(data: seq<string>, i: nat, st: ScanState, swap: bool, time: Time, volume: int)
    requires i + 2 < |data| && IsTimeToken(data[i]) && data[i + 2] != NO_PRICE
    requires st.mustReplace == Some(swap) || (st.mustReplace.None? && DetectLocale(data, i) == Ok(swap))
    requires ParseHms(Strip(data[i])) == Some(time)
    requires IsFloatText(PriceText(data[i + 2], swap))
    requires ParseVolume(data[i + 1], swap) == Some(volume)
    ensures DataRow(data, i, st)
         == Ok(Move(4, st.(mustReplace := Some(swap)),
                    Some(Entry(DateTime(st.date, time), volume, PriceText(data[i + 2], swap), BUY))))
  {
  }

  lemma AcmeHeaderStep(data: seq<string>, i: nat, st: ScanState)
    requires i + 1 < |data| && data[i] == ACME && data[i + 1] != FREIVERKEHR
    ensures Step(data, i, st) == Ok(Move(1, st.(share := ACME), None))
  {
    AcmeHeader();
    StepShareHeader(data, i, st);
  }

  const ACME_ENTRY: Entry := Entry(DateTime(Date(2021, 3, 1), Time(9, 0, 0, 0)), 100, "500", BUY)

  /** The dictionary the example page produces. */
  const ACME_LEDGER: Ledger := Dict([ACME], map[ACME := [ACME_ENTRY]])

  lemma AcmeLedger()
    ensures Record(Empty(), ACME, ACME_ENTRY) == ACME_LEDGER
  {
    assert [] + [ACME_ENTRY] == [ACME_ENTRY];
  }

  /** The tokens of the example page, one by one. */
  predicate IsAcmePage(data: seq<string>) {
    && |data| == 6
    && data[0] == "Datum: 01.03.2021" && data[1] == ACME && data[2] == "09:00:00"
    && data[3] == "100" && data[4] == "5,00" && data[5] == "+"
  }

  /** The date marker and the header of the example page set the date and the share. */
  lemma AcmePreamble(data: seq<string>, today: Date)
    requires IsAcmePage(data) && Advances(Step)
    ensures Loop(Step, data, 0, InitialState(today), Empty())
         == Loop(Step, data, 2, ScanState(ACME, Date(2021, 3, 1), None), Empty())
  {
    var st0 := InitialState(today);
    var st1 := st0.(date := Date(2021, 3, 1));
    AcmeDate(data, 0, st0);
    LoopStep(Step, data, 0, st0, Empty(), Move(1, st1, None));
    AcmeHeaderStep(data, 1, st1);
    LoopStep(Step, data, 1, st1, Empty(), Move(1, st1.(share := ACME), None));
  }

  /** Its trade row is recorded under the share and decides the `en_US` layout. */
  lemma AcmeTradeRow(data: seq<string>)
    requires IsAcmePage(data) && Advances(Step)
    ensures Loop(Step, data, 2, ScanState(ACME, Date(2021, 3, 1), None), Empty())
         == Ok(Scanned(ScanState(ACME, Date(2021, 3, 1), Some(false)), ACME_LEDGER))
  {
    var st2 := ScanState(ACME, Date(2021, 3, 1), None);
    var st3 := st2.(mustReplace := Some(false));
    FirstRowUs(data, 2, st2);
    LoopStep(Step, data, 2, st2, Empty(), Move(4, st3, Some(ACME_ENTRY)));
    AcmeLedger();
  }

  lemma AcmePage(today: Date)
    ensures ScanPage(ACME_PAGE, InitialState(today), Empty())
         == Ok(Scanned(ScanState(ACME, Date(2021, 3, 1), Some(false)), ACME_LEDGER))
  {
    assert IsAcmePage(ACME_PAGE);
    StepContract();
    AcmePreamble(ACME_PAGE, today);
    AcmeTradeRow(ACME_PAGE);
  }

  /**
   * The one-page Kursblatt: a date marker, a share header and one
   * buy row give one entry under `ACME (DE000ACME001)`, dated by the marker,
   * with the price text `500`.
   */
  lemma AcmeDocument(today: Date)
    ensures ScanDocument([ACME_PAGE], today) == Ok(ACME_LEDGER)
  {
    ScanDocumentOnePage(ACME_PAGE, today);
    AcmePage(today);
  }
}
