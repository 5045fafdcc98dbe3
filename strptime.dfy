/**
 * `datetime.strptime` for the four formats the collector uses, and
 * `datetime.isoformat()`.
 *
 * CPython compiles a format into a regular expression (module `_strptime`),
 * matches it case-insensitively at the start of the text and raises
 * ValueError unless the whole text is consumed. The numeric directives are
 *   %Y  \d\d\d\d          %m  1[0-2]|0[1-9]|[1-9]
 *   %d  3[01]|[12]\d|0[1-9]|[1-9]| [1-9]
 *   %H  2[0-3]|[0-1]\d|\d  %M  [0-5]\d|\d     %S  6[0-1]|[0-5]\d|\d
 *   %f  [0-9]{1,6}
 * and a blank in the format stands for `\s+`. In every format used here a
 * numeric directive is followed by a non-digit or by the end of the text,
 * so the text a directive matches is exactly the run of digits at that
 * point (with the leading blank of ` [1-9]` for %d); `Match` reads the
 * fields that way. The resulting date and time are then checked by the
 * `datetime` constructor, which refuses day 31 of a 30-day month, year 0
 * and the seconds 60 and 61 that the %S pattern lets through.
 */
module Strptime {
  import opened Wrappers
  import opened Text
  import opened Calendar

  datatype Field = Year | Month | Day | Hour | Minute | Second | Fraction

  datatype Directive = Num(field: Field) | Lit(c: char) | Blanks

  /** `%d.%m.%Y`, the date of a Kursblatt "Datum:" marker. */
  const DMY: seq<Directive> := [Num(Day), Lit('.'), Num(Month), Lit('.'), Num(Year)]

  /** `%H:%M:%S`, the time column of a Kursblatt row. */
  const HMS: seq<Directive> := [Num(Hour), Lit(':'), Num(Minute), Lit(':'), Num(Second)]

  /** `%Y-%m-%dT%H:%M:%S`, the timestamps of the JSON interchange files. */
  const ISO_SECONDS: seq<Directive> :=
    [Num(Year), Lit('-'), Num(Month), Lit('-'), Num(Day), Lit('T'),
     Num(Hour), Lit(':'), Num(Minute), Lit(':'), Num(Second)]

  /** `%Y-%m-%d %H:%M:%S.%f`, the timestamps of the live trade feed. */
  const FEED_TIMESTAMP: seq<Directive> :=
    [Num(Year), Lit('-'), Num(Month), Lit('-'), Num(Day), Blanks,
     Num(Hour), Lit(':'), Num(Minute), Lit(':'), Num(Second), Lit('.'), Num(Fraction)]

  /** Length of the longest prefix of `s` made of ASCII digits. */
  function DigitRun(s: string): (n: nat)
    ensures n <= |s| && AllDigits(s[..n])
    ensures n < |s| ==> !IsDigit(s[n])
  {
    if s != [] && IsDigit(s[0]) then
      assert s[..1 + DigitRun(s[1..])] == [s[0]] + s[1..][..DigitRun(s[1..])];
      1 + DigitRun(s[1..])
    else 0
  }

  /** Length of the longest prefix of `s` made of whitespace (`\s+`, greedy). */
  function SpaceRun(s: string): (n: nat)
    ensures n <= |s|
  {
    if s != [] && IsSpace(s[0]) then 1 + SpaceRun(s[1..]) else 0
  }

  /** Length of the text a numeric directive consumes at the start of `s`. */
  function FieldLength(f: Field, s: string): (n: nat)
    ensures n <= |s|
  {
    if f == Day && s != [] && s[0] == ' ' then 1 + DigitRun(s[1..]) else DigitRun(s)
  }

  /**
   * The value of a one- or two-digit field: two digits valued in
   * `twoMin..twoMax`, or one digit valued in `oneMin..9`.
   */
  function ShortField(t: string, oneMin: nat, twoMin: nat, twoMax: nat): Option<nat> {
    if |t| == 2 && AllDigits(t) && twoMin <= DigitsValue(t) <= twoMax then Some(DigitsValue(t))
    else if |t| == 1 && AllDigits(t) && oneMin <= DigitsValue(t) then Some(DigitsValue(t))
    else None
  }

  /** The value a directive's pattern gives the text `t`, or `None` if it does not match. */
  function FieldValue(f: Field, t: string): Option<nat> {
    match f
    case Year => if |t| == 4 && AllDigits(t) then Some(DigitsValue(t)) else None
    case Month => ShortField(t, 1, 1, 12)
    case Day =>
      if |t| == 2 && t[0] == ' ' && IsDigit(t[1]) && t[1] != '0' then Some(DigitValue(t[1]))
      else ShortField(t, 1, 1, 31)
    case Hour => ShortField(t, 0, 0, 23)
    case Minute => ShortField(t, 0, 0, 59)
    case Second => ShortField(t, 0, 0, 61)
    case Fraction =>
      if 1 <= |t| <= 6 && AllDigits(t) then Some(DigitsValue(t) * Pow10(6 - |t|)) else None
  }

  /** A literal of the format matches case-insensitively (`re.IGNORECASE`). */
  predicate LitMatches(p: char, c: char) {
    c == p || ('A' <= p <= 'Z' && c as int == p as int + 32)
  }

  function NumFields(fmt: seq<Directive>): nat {
    if fmt == [] then 0 else (if fmt[0].Num? then 1 else 0) + NumFields(fmt[1..])
  }

  /** The field values read from `s` in format order, or `None` where strptime raises. */
  function Match(fmt: seq<Directive>, s: string): (r: Option<seq<nat>>)
    ensures r.Some? ==> |r.value| == NumFields(fmt)
    decreases fmt
  {
    if fmt == [] then (if s == [] then Some([]) else None)
    else match fmt[0]
      case Lit(c) => if s != [] && LitMatches(c, s[0]) then Match(fmt[1..], s[1..]) else None
      case Blanks =>
        var n := SpaceRun(s);
        if n == 0 then None else Match(fmt[1..], s[n..])
      case Num(f) =>
        var n := FieldLength(f, s);
        match FieldValue(f, s[..n])
        case None => None
        case Some(v) =>
          match Match(fmt[1..], s[n..])
          case None => None
          case Some(rest) => Some([v] + rest)
  }

  /** `datetime.strptime(s, "%d.%m.%Y").date()`. */
  function ParseDmy(s: string): (r: Option<Date>)
    ensures r.Some? ==> ValidDate(r.value)
  {
    match Match(DMY, s)
    case None => None
    case Some(v) =>
      var d := Date(v[2], v[1], v[0]);
      if ValidDate(d) then Some(d) else None
  }

  /** `datetime.strptime(s, "%H:%M:%S").time()`. */
  function ParseHms(s: string): (r: Option<Time>)
    ensures r.Some? ==> ValidTime(r.value) && r.value.micro == 0
  {
    match Match(HMS, s)
    case None => None
    case Some(v) =>
      var t := Time(v[0], v[1], v[2], 0);
      if ValidTime(t) then Some(t) else None
  }

  /** `datetime.strptime(s, "%Y-%m-%dT%H:%M:%S")`. */
  function ParseIsoSeconds(s: string): (r: Option<DateTime>)
    ensures r.Some? ==> ValidDateTime(r.value) && r.value.time.micro == 0
  {
    match Match(ISO_SECONDS, s)
    case None => None
    case Some(v) =>
      var dt := DateTime(Date(v[0], v[1], v[2]), Time(v[3], v[4], v[5], 0));
      if ValidDateTime(dt) then Some(dt) else None
  }

  /** `datetime.strptime(s, "%Y-%m-%d %H:%M:%S.%f")`. */
  function ParseFeedTimestamp(s: string): (r: Option<DateTime>)
    ensures r.Some? ==> ValidDateTime(r.value)
  {
    match Match(FEED_TIMESTAMP, s)
    case None => None
    case Some(v) =>
      var dt := DateTime(Date(v[0], v[1], v[2]), Time(v[3], v[4], v[5], v[6]));
      if ValidDateTime(dt) then Some(dt) else None
  }

  /**
   * `dt.isoformat()`: `YYYY-MM-DDTHH:MM:SS`, followed by `.ffffff` only when
   * the microseconds are not zero.
   */
  function Isoformat(dt: DateTime): string
    requires ValidDateTime(dt)
  {
    IsoSeconds(dt) + (if dt.time.micro != 0 then "." + Padded(dt.time.micro, 6) else "")
  }

  /**
   * The part of `isoformat()` up to the seconds, `%04d-%02d-%02dT%02d:%02d:%02d`:
   * the ISO format written with zero-padded fields.
   */
  function IsoSeconds(dt: DateTime): string
    requires ValidDateTime(dt)
  {
    IsoSecondsShape(dt);
    Render(ISO_SECONDS, IsoFields(dt))
  }

  /** The six numbers `isoformat()` writes up to the seconds, in order. */
  function IsoFields(dt: DateTime): seq<nat>
    requires ValidDateTime(dt)
  {
    var d := dt.date;
    var t := dt.time;
    [d.year, d.month, d.day, t.hour, t.minute, t.second]
  }

  // ---------------------------------------------------------------------
  // Reading back what is written with fixed-width, zero-padded fields.

  function Width(f: Field): nat {
    match f
    case Year => 4
    case Fraction => 6
    case _ => 2
  }

  /** The values a directive's zero-padded rendering reads back as. */
  predicate InRange(f: Field, v: nat) {
    match f
    case Year => v <= 9999
    case Month => 1 <= v <= 12
    case Day => 1 <= v <= 31
    case Hour => v <= 23
    case Minute => v <= 59
    case Second => v <= 61
    case Fraction => v <= 999999
  }

  /**
   * Every numeric directive is followed by a non-digit literal or by blanks,
   * or ends the format; blanks are followed by a field or a non-blank literal.
   */
  predicate Separated(fmt: seq<Directive>)
    decreases fmt
  {
    fmt == [] ||
    match fmt[0]
    case Num(_) => (|fmt| == 1 || fmt[1].Blanks? || (fmt[1].Lit? && !IsDigit(fmt[1].c))) && Separated(fmt[1..])
    case Lit(_) => Separated(fmt[1..])
    case Blanks => |fmt| > 1 && (fmt[1].Num? || (fmt[1].Lit? && !IsSpace(fmt[1].c))) && Separated(fmt[1..])
  }

  /** Every value lies in the range its directive reads back. */
  predicate Fits(fmt: seq<Directive>, vals: seq<nat>)
    requires |vals| == NumFields(fmt)
    decreases fmt
  {
    fmt == [] ||
    match fmt[0]
    case Num(f) => InRange(f, vals[0]) && Fits(fmt[1..], vals[1..])
    case _ => Fits(fmt[1..], vals)
  }

  /** Writes `vals` into `fmt` with every field zero-padded to its width. */
  function Render(fmt: seq<Directive>, vals: seq<nat>): string
    requires |vals| == NumFields(fmt)
    decreases fmt
  {
    if fmt == [] then ""
    else match fmt[0]
      case Num(f) => Padded(vals[0], Width(f)) + Render(fmt[1..], vals[1..])
      case Lit(c) => [c] + Render(fmt[1..], vals)
      case Blanks => " " + Render(fmt[1..], vals)
  }

  lemma {:induction false} DigitRunPrefix(t: string, rest: string)
    requires AllDigits(t)
    requires rest == [] || !IsDigit(rest[0])
    ensures DigitRun(t + rest) == |t|
  {
    if t != [] {
      assert (t + rest)[1..] == t[1..] + rest;
      DigitRunPrefix(t[1..], rest);
    }
  }

  lemma PaddedFieldValue(f: Field, v: nat)
    requires InRange(f, v)
    ensures FieldValue(f, Padded(v, Width(f))) == Some(v)
  {
    var t := Padded(v, Width(f));
    assert Pow10(2) == 100 && Pow10(4) == 10000 && Pow10(6) == 1000000 && Pow10(0) == 1;
    PaddedValue(v, Width(f));
    if f == Day {
      assert t[0] != ' ' by { assert IsDigit(t[0]); }
    }
  }

  /** A zero-padded field followed by a non-digit is read as exactly that field. */
  lemma RenderedField(f: Field, v: nat, after: string)
    requires InRange(f, v)
    requires after == [] || !IsDigit(after[0])
    ensures var t := Padded(v, Width(f));
            var s := t + after;
            && FieldLength(f, s) == |t| && s[..|t|] == t && s[|t|..] == after
            && FieldValue(f, t) == Some(v)
  {
    var t := Padded(v, Width(f));
    var s := t + after;
    DigitRunPrefix(t, after);
    PaddedFieldValue(f, v);
    assert f == Day ==> s[0] != ' ' by { assert IsDigit(t[0]); }
  }

  /**
   * What `Render` writes, `Match` reads back, and any further non-digit
   * text makes the match fail ("unconverted data remains").
   */
  lemma {:induction false} MatchRender(fmt: seq<Directive>, vals: seq<nat>, extra: string)
    requires Separated(fmt)
    requires |vals| == NumFields(fmt) && Fits(fmt, vals)
    requires extra == [] || !IsDigit(extra[0])
    ensures Match(fmt, Render(fmt, vals) + extra) == if extra == [] then Some(vals) else None
    decreases fmt
  {
    if fmt != [] {
      match fmt[0]
      case Lit(c) =>
        MatchRender(fmt[1..], vals, extra);
        MatchRenderLit(fmt, vals, extra);
      case Num(f) =>
        MatchRender(fmt[1..], vals[1..], extra);
        MatchRenderNum(fmt, vals, extra);
        if extra == [] {
          assert [vals[0]] + vals[1..] == vals;
        }
      case Blanks =>
        MatchRender(fmt[1..], vals, extra);
        MatchRenderBlanks(fmt, vals, extra);
    }
  }

  /** A literal in front of a rendered format is matched and skipped. */
  lemma MatchRenderLit(fmt: seq<Directive>, vals: seq<nat>, extra: string)
    requires fmt != [] && fmt[0].Lit? && |vals| == NumFields(fmt)
    requires Match(fmt[1..], Render(fmt[1..], vals) + extra) == if extra == [] then Some(vals) else None
    ensures Match(fmt, Render(fmt, vals) + extra) == if extra == [] then Some(vals) else None
  {
    var c := fmt[0].c;
    assert [c] + Render(fmt[1..], vals) + extra == [c] + (Render(fmt[1..], vals) + extra);
  }

  /**
   * A blank in front of a rendered format is matched by `\s+`, which stops at
   * the field or literal that follows it.
   */
  lemma MatchRenderBlanks(fmt: seq<Directive>, vals: seq<nat>, extra: string)
    requires fmt != [] && fmt[0].Blanks? && Separated(fmt) && |vals| == NumFields(fmt)
    requires Match(fmt[1..], Render(fmt[1..], vals) + extra) == if extra == [] then Some(vals) else None
    ensures Match(fmt, Render(fmt, vals) + extra) == if extra == [] then Some(vals) else None
  {
    var tail := fmt[1..];
    var after := Render(tail, vals) + extra;
    if tail[0].Num? {
      RenderNum(tail, vals);
      var t := Padded(vals[0], Width(tail[0].field));
      assert after[0] == t[0] && IsDigit(t[0]);
    } else {
      RenderLit(tail, vals);
      assert after[0] == tail[0].c;
    }
    RenderBlanks(fmt, vals);
    var s := " " + after;
    assert Render(fmt, vals) + extra == s;
    assert s[1..] == after && !IsSpace(s[1]);
    assert SpaceRun(s) == 1;
  }

  /** A rendered field in front of a rendered format is read back as its value. */
  lemma MatchRenderNum(fmt: seq<Directive>, vals: seq<nat>, extra: string)
    requires fmt != [] && fmt[0].Num? && Separated(fmt)
    requires |vals| == NumFields(fmt) && Fits(fmt, vals)
    requires extra == [] || !IsDigit(extra[0])
    ensures Match(fmt, Render(fmt, vals) + extra)
         == match Match(fmt[1..], Render(fmt[1..], vals[1..]) + extra)
            case None => None
            case Some(r) => Some([vals[0]] + r)
  {
    FieldFollower(fmt, vals, extra);
    assert InRange(fmt[0].field, vals[0]);
    MatchField(fmt, vals[0], Render(fmt[1..], vals[1..]) + extra);
    RenderNumThen(fmt, vals, extra);
  }

  /** What follows a rendered field starts with a non-digit, or is empty. */
  lemma FieldFollower(fmt: seq<Directive>, vals: seq<nat>, extra: string)
    requires fmt != [] && fmt[0].Num? && Separated(fmt) && |vals| == NumFields(fmt)
    requires extra == [] || !IsDigit(extra[0])
    ensures var after := Render(fmt[1..], vals[1..]) + extra;
            after == [] || !IsDigit(after[0])
  {
    var tail := fmt[1..];
    if tail != [] && tail[0].Blanks? {
      RenderBlanks(tail, vals[1..]);
    } else if tail != [] {
      assert tail[0].Lit? && !IsDigit(tail[0].c);
      RenderLit(tail, vals[1..]);
    }
  }

  /** `Match` reads a zero-padded field and goes on with the rest of the format. */
  lemma MatchField(fmt: seq<Directive>, v: nat, after: string)
    requires fmt != [] && fmt[0].Num? && InRange(fmt[0].field, v)
    requires after == [] || !IsDigit(after[0])
    ensures Match(fmt, Padded(v, Width(fmt[0].field)) + after)
         == match Match(fmt[1..], after) case None => None case Some(r) => Some([v] + r)
  {
    RenderedField(fmt[0].field, v, after);
  }

  lemma RenderNum(fmt: seq<Directive>, vals: seq<nat>)
    requires fmt != [] && fmt[0].Num? && |vals| == NumFields(fmt)
    ensures Render(fmt, vals) == Padded(vals[0], Width(fmt[0].field)) + Render(fmt[1..], vals[1..])
  {
  }

  lemma RenderNumThen(fmt: seq<Directive>, vals: seq<nat>, extra: string)
    requires fmt != [] && fmt[0].Num? && |vals| == NumFields(fmt)
    ensures Render(fmt, vals) + extra == Padded(vals[0], Width(fmt[0].field)) + (Render(fmt[1..], vals[1..]) + extra)
  {
    RenderNum(fmt, vals);
  }

  lemma RenderLit(fmt: seq<Directive>, vals: seq<nat>)
    requires fmt != [] && fmt[0].Lit? && |vals| == NumFields(fmt)
    ensures Render(fmt, vals) == [fmt[0].c] + Render(fmt[1..], vals)
  {
  }

  lemma RenderBlanks(fmt: seq<Directive>, vals: seq<nat>)
    requires fmt != [] && fmt[0].Blanks? && |vals| == NumFields(fmt)
    ensures Render(fmt, vals) == " " + Render(fmt[1..], vals)
  {
  }

  /**
   * `isoformat()` followed by `strptime(..., "%Y-%m-%dT%H:%M:%S")` gives back
   * every valid datetime with zero microseconds.
   */
  lemma IsoRoundTrip(dt: DateTime)
    requires ValidDateTime(dt) && dt.time.micro == 0
    ensures ParseIsoSeconds(Isoformat(dt)) == Some(dt)
  {
    IsoformatFields(dt);
    var v := IsoFields(dt);
    assert DateTime(Date(v[0], v[1], v[2]), Time(v[3], v[4], v[5], 0)) == dt;
  }

  /** `strptime` reads the fields of a datetime back from its `isoformat()`. */
  lemma IsoformatFields(dt: DateTime)
    requires ValidDateTime(dt) && dt.time.micro == 0
    ensures Match(ISO_SECONDS, Isoformat(dt)) == Some(IsoFields(dt))
  {
    IsoReadBack(dt, "");
    assert Isoformat(dt) == IsoSeconds(dt) + "";
  }

  /** A datetime with microseconds does not survive the round trip: strptime raises. */
  lemma IsoMicrosecondsRejected(dt: DateTime)
    requires ValidDateTime(dt) && dt.time.micro != 0
    ensures ParseIsoSeconds(Isoformat(dt)) == None
  {
    var extra := "." + Padded(dt.time.micro, 6);
    IsoReadBack(dt, extra);
    assert Isoformat(dt) == IsoSeconds(dt) + extra;
  }

  /** The ISO format reads back what `isoformat()` writes up to the seconds, and nothing more. */
  lemma IsoReadBack(dt: DateTime, extra: string)
    requires ValidDateTime(dt)
    requires extra == [] || !IsDigit(extra[0])
    ensures Match(ISO_SECONDS, IsoSeconds(dt) + extra) == if extra == [] then Some(IsoFields(dt)) else None
  {
    IsoSecondsShape(dt);
    MatchRender(ISO_SECONDS, IsoFields(dt), extra);
  }

  lemma IsoSecondsShape(dt: DateTime)
    requires ValidDateTime(dt)
    ensures Separated(ISO_SECONDS) && NumFields(ISO_SECONDS) == 6 && Fits(ISO_SECONDS, IsoFields(dt))
  {
    var v := IsoFields(dt);
    var r5 := [Lit('T')] + ISO_SECONDS[6..];
    var r4 := [Num(Day)] + r5;
    var r3 := [Lit('-')] + r4;
    var r2 := [Num(Month)] + r3;
    var r1 := [Lit('-')] + r2;
    var w2 := [v[2]] + v[3..];
    var w1 := [v[1]] + w2;
    IsoTimeShape(dt);
    ShapeLit('T', ISO_SECONDS[6..], v[3..]);
    ShapeNum(Day, v[2], r5, v[3..]);
    ShapeLit('-', r4, w2);
    ShapeNum(Month, v[1], r3, w2);
    ShapeLit('-', r2, w1);
    ShapeNum(Year, v[0], r1, w1);
    assert [v[0]] + w1 == v;
    assert [Num(Year)] + r1 == ISO_SECONDS;
  }

  lemma IsoTimeShape(dt: DateTime)
    requires ValidDateTime(dt)
    ensures var time := ISO_SECONDS[6..];
            && time[0] == Num(Hour) && Separated(time) && NumFields(time) == 3 && Fits(time, IsoFields(dt)[3..])
  {
    var v := IsoFields(dt);
    var r10: seq<Directive> := [Num(Second)];
    var r9 := [Lit(':')] + r10;
    var r8 := [Num(Minute)] + r9;
    var r7 := [Lit(':')] + r8;
    var w5: seq<nat> := [v[5]];
    var w4 := [v[4]] + w5;
    ShapeNum(Second, v[5], [], []);
    assert [Num(Second)] + [] == r10 && [v[5]] + [] == w5;
    ShapeLit(':', r10, w5);
    ShapeNum(Minute, v[4], r9, w5);
    ShapeLit(':', r8, w4);
    ShapeNum(Hour, v[3], r7, w4);
    assert [v[3]] + w4 == v[3..];
    assert [Num(Hour)] + r7 == ISO_SECONDS[6..];
  }

  /** The seven numbers of a feed timestamp, in format order. */
  function FeedFields(dt: DateTime): seq<nat>
    requires ValidDateTime(dt)
  {
    var d := dt.date;
    var t := dt.time;
    [d.year, d.month, d.day, t.hour, t.minute, t.second, t.micro]
  }

  /** A datetime as the feed writes it: `YYYY-MM-DD HH:MM:SS.ffffff`. */
  function FeedText(dt: DateTime): string
    requires ValidDateTime(dt)
  {
    FeedShape(dt);
    Render(FEED_TIMESTAMP, FeedFields(dt))
  }

  /** The feed format reads back every valid datetime, microseconds included. */
  lemma FeedRoundTrip(dt: DateTime)
    requires ValidDateTime(dt)
    ensures ParseFeedTimestamp(FeedText(dt)) == Some(dt)
  {
    var vals := FeedFields(dt);
    FeedShape(dt);
    MatchRender(FEED_TIMESTAMP, vals, "");
    assert FeedText(dt) + "" == FeedText(dt);
    assert DateTime(Date(vals[0], vals[1], vals[2]), Time(vals[3], vals[4], vals[5], vals[6])) == dt;
  }

  lemma FeedShape(dt: DateTime)
    requires ValidDateTime(dt)
    ensures Separated(FEED_TIMESTAMP) && NumFields(FEED_TIMESTAMP) == 7
    ensures Fits(FEED_TIMESTAMP, FeedFields(dt))
  {
    var v := FeedFields(dt);
    var r5 := [Blanks] + FEED_TIMESTAMP[6..];
    var r4 := [Num(Day)] + r5;
    var r3 := [Lit('-')] + r4;
    var r2 := [Num(Month)] + r3;
    var r1 := [Lit('-')] + r2;
    var w2 := [v[2]] + v[3..];
    var w1 := [v[1]] + w2;
    FeedTimeShape(dt);
    ShapeBlanks(FEED_TIMESTAMP[6..], v[3..]);
    ShapeNum(Day, v[2], r5, v[3..]);
    ShapeLit('-', r4, w2);
    ShapeNum(Month, v[1], r3, w2);
    ShapeLit('-', r2, w1);
    ShapeNum(Year, v[0], r1, w1);
    assert [v[0]] + w1 == v;
    assert [Num(Year)] + r1 == FEED_TIMESTAMP;
  }

  lemma FeedTimeShape(dt: DateTime)
    requires ValidDateTime(dt)
    ensures var time := FEED_TIMESTAMP[6..];
            Separated(time) && NumFields(time) == 4 && Fits(time, FeedFields(dt)[3..])
  {
    var v := FeedFields(dt);
    var r10 := FEED_TIMESTAMP[10..];
    var r9 := [Lit(':')] + r10;
    var r8 := [Num(Minute)] + r9;
    var r7 := [Lit(':')] + r8;
    var w4 := [v[4]] + v[5..];
    FeedSecondsShape(dt);
    ShapeLit(':', r10, v[5..]);
    ShapeNum(Minute, v[4], r9, v[5..]);
    ShapeLit(':', r8, w4);
    ShapeNum(Hour, v[3], r7, w4);
    assert [v[3]] + w4 == v[3..];
    assert [Num(Hour)] + r7 == FEED_TIMESTAMP[6..];
  }

  lemma FeedSecondsShape(dt: DateTime)
    requires ValidDateTime(dt)
    ensures var r := FEED_TIMESTAMP[10..];
            && r[0] == Num(Second) && Separated(r) && NumFields(r) == 2 && Fits(r, FeedFields(dt)[5..])
  {
    var v := FeedFields(dt);
    var r12: seq<Directive> := [Num(Fraction)];
    var r11 := [Lit('.')] + r12;
    var w6: seq<nat> := [v[6]];
    ShapeNum(Fraction, v[6], [], []);
    assert [Num(Fraction)] + [] == r12 && [v[6]] + [] == w6;
    ShapeLit('.', r12, w6);
    ShapeNum(Second, v[5], r11, w6);
    assert [v[5]] + w6 == v[5..];
    assert [Num(Second)] + r11 == FEED_TIMESTAMP[10..];
  }

  /** A field in front of a separated format keeps it separated and fitting. */
  lemma ShapeNum(f: Field, v: nat, rest: seq<Directive>, vals: seq<nat>)
    requires rest == [] || rest[0].Blanks? || (rest[0].Lit? && !IsDigit(rest[0].c))
    requires Separated(rest) && |vals| == NumFields(rest) && Fits(rest, vals) && InRange(f, v)
    ensures Separated([Num(f)] + rest) && NumFields([Num(f)] + rest) == |vals| + 1
    ensures Fits([Num(f)] + rest, [v] + vals)
  {
    assert ([Num(f)] + rest)[1..] == rest && ([v] + vals)[1..] == vals;
  }

  /** A literal in front of a separated format keeps it separated and fitting. */
  lemma ShapeLit(c: char, rest: seq<Directive>, vals: seq<nat>)
    requires Separated(rest) && |vals| == NumFields(rest) && Fits(rest, vals)
    ensures Separated([Lit(c)] + rest) && NumFields([Lit(c)] + rest) == |vals|
    ensures Fits([Lit(c)] + rest, vals)
  {
    assert ([Lit(c)] + rest)[1..] == rest;
  }

  /** Blanks in front of a field or a non-blank literal keep the format separated and fitting. */
  lemma ShapeBlanks(rest: seq<Directive>, vals: seq<nat>)
    requires rest != [] && (rest[0].Num? || (rest[0].Lit? && !IsSpace(rest[0].c)))
    requires Separated(rest) && |vals| == NumFields(rest) && Fits(rest, vals)
    ensures Separated([Blanks] + rest) && NumFields([Blanks] + rest) == |vals|
    ensures Fits([Blanks] + rest, vals)
  {
    assert ([Blanks] + rest)[1..] == rest;
  }

  /**
   * `%f` pads its digits on the right: a trailing zero does not change the
   * microseconds, so `.5`, `.50` and `.500000` all mean 500000.
   */
  lemma FractionTrailingZero(t: string)
    requires 1 <= |t| < 6 && AllDigits(t)
    ensures FieldValue(Fraction, t + "0") == FieldValue(Fraction, t)
  {
    var u := t + "0";
    assert u[..|u| - 1] == t;
    assert DigitsValue(u) == DigitsValue(t) * 10;
    ShiftedScale(DigitsValue(t), 5 - |t|);
  }

  /** Moving a factor 10 from the scale into the value keeps the product. */
  lemma ShiftedScale(v: nat, n: nat)
    ensures v * 10 * Pow10(n) == v * Pow10(n + 1)
  {
  }

  /** `.5` is half a second. */
  lemma FractionHalf()
    ensures FieldValue(Fraction, "5") == Some(500000)
  {
    assert Pow10(5) == 100000;
  }

  /** `strptime(..., "%d.%m.%Y")` reads back every date written as `dd.mm.YYYY`. */
  lemma DmyRoundTrip(d: Date)
    requires ValidDate(d)
    ensures ParseDmy(Padded(d.day, 2) + ("." + (Padded(d.month, 2) + ("." + Padded(d.year, 4))))) == Some(d)
  {
    var vals: seq<nat> := [d.day, d.month, d.year];
    DmyShape(vals);
    RenderThree(DMY, vals);
    MatchRender(DMY, vals, "");
    assert Render(DMY, vals) + "" == Render(DMY, vals);
  }

  lemma DmyShape(vals: seq<nat>)
    requires |vals| == 3 && InRange(Day, vals[0]) && InRange(Month, vals[1]) && InRange(Year, vals[2])
    ensures Separated(DMY) && NumFields(DMY) == 3 && Fits(DMY, vals)
  {
    var f := DMY;
    assert Separated(f[4..]) && NumFields(f[4..]) == 1;
    assert Separated(f[2..]) && NumFields(f[2..]) == 2;
    assert Fits(f[4..], vals[2..]);
    assert Fits(f[2..], vals[1..]);
  }

  /** A format of three fields with a literal between each two, rendered. */
  lemma RenderThree(fmt: seq<Directive>, vals: seq<nat>)
    requires |fmt| == 5 && fmt[0].Num? && fmt[1].Lit? && fmt[2].Num? && fmt[3].Lit? && fmt[4].Num?
    requires |vals| == 3
    ensures NumFields(fmt) == 3
    ensures Render(fmt, vals)
         == Padded(vals[0], Width(fmt[0].field)) + ([fmt[1].c] + (Padded(vals[1], Width(fmt[2].field))
            + ([fmt[3].c] + Padded(vals[2], Width(fmt[4].field)))))
  {
    assert NumFields(fmt[4..]) == 1 && NumFields(fmt[3..]) == 1 && NumFields(fmt[2..]) == 2;
    assert NumFields(fmt[1..]) == 2;
    RenderNum(fmt[4..], vals[2..]);
    assert Render(fmt[4..][1..], vals[2..][1..]) == "";
    RenderLit(fmt[3..], vals[2..]);
    RenderNum(fmt[2..], vals[1..]);
    RenderLit(fmt[1..], vals[1..]);
    RenderNum(fmt, vals);
  }

  /** `strptime(..., "%H:%M:%S")` reads back every time to the second written as `HH:MM:SS`. */
  lemma HmsRoundTrip(t: Time)
    requires ValidTime(t) && t.micro == 0
    ensures ParseHms(Padded(t.hour, 2) + (":" + (Padded(t.minute, 2) + (":" + Padded(t.second, 2))))) == Some(t)
  {
    var vals: seq<nat> := [t.hour, t.minute, t.second];
    HmsShape(vals);
    RenderThree(HMS, vals);
    MatchRender(HMS, vals, "");
    assert Render(HMS, vals) + "" == Render(HMS, vals);
  }

  lemma HmsShape(vals: seq<nat>)
    requires |vals| == 3 && InRange(Hour, vals[0]) && InRange(Minute, vals[1]) && InRange(Second, vals[2])
    ensures Separated(HMS) && NumFields(HMS) == 3 && Fits(HMS, vals)
  {
    var f := HMS;
    assert Separated(f[4..]) && NumFields(f[4..]) == 1;
    assert Separated(f[2..]) && NumFields(f[2..]) == 2;
    assert Fits(f[4..], vals[2..]);
    assert Fits(f[2..], vals[1..]);
  }

  /** A text too short for the four digits of `%Y` is refused by every format that starts with the year. */
  lemma ShortTextNotIso(s: string)
    requires |s| < 4
    ensures ParseIsoSeconds(s).None?
  {
    var fmt := ISO_SECONDS;
    assert fmt[0] == Num(Year);
    var n := FieldLength(Year, s);
    assert FieldValue(Year, s[..n]).None?;
  }
}
