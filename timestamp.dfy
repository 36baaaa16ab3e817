/**
 * The `Data` column's timestamps, read with the fixed format
 * `%d/%m/%Y %I:%M:%S %p` (day first, 12-hour clock) as `pd.to_datetime`
 * reads it, and truncated to the calendar date.
 *
 * The parser follows the regular expressions of Python's `strptime`, which
 * pandas reuses: `%d`, `%m`, `%I`, `%M` and `%S` take one or two digits
 * (`%d` also a space and one digit), `%Y` exactly four, a space in the
 * format matches a run of one or more whitespace characters, `%p` is `AM`
 * or `PM` in any letter case, and the whole string must be consumed. The
 * fields are then checked as a calendar date and against the range of a
 * nanosecond timestamp.
 */
module Timestamp {
  import opened Wrappers

  /** A calendar date: the value kept in the `date` column. */
  datatype Date = Date(year: int, month: int, day: int)

  /** A parsed timestamp; `hour` is on the 24-hour clock. */
  datatype DateTime = DateTime(date: Date, hour: int, minute: int, second: int)

  /** Strict chronological order of dates. */
  predicate Before(a: Date, b: Date) {
    a.year < b.year ||
    (a.year == b.year && (a.month < b.month || (a.month == b.month && a.day < b.day)))
  }

  /** Strict chronological order of timestamps. */
  predicate EarlierThan(a: DateTime, b: DateTime) {
    Before(a.date, b.date) ||
    (a.date == b.date &&
     (a.hour < b.hour ||
      (a.hour == b.hour && (a.minute < b.minute || (a.minute == b.minute && a.second < b.second)))))
  }

  predicate IsLeapYear(y: int) {
    y % 4 == 0 && (y % 100 != 0 || y % 400 == 0)
  }

  function DaysInMonth(y: int, m: int): (n: int)
    requires 1 <= m <= 12
    ensures 28 <= n <= 31
  {
    if m == 2 then (if IsLeapYear(y) then 29 else 28)
    else if m == 4 || m == 6 || m == 9 || m == 11 then 30
    else 31
  }

  predicate ValidDate(d: Date) {
    1 <= d.month <= 12 && 1 <= d.day <= DaysInMonth(d.year, d.month)
  }

  predicate ValidDateTime(t: DateTime) {
    ValidDate(t.date) && 0 <= t.hour < 24 && 0 <= t.minute < 60 && 0 <= t.second < 60
  }

  /** The first and the last whole second a nanosecond timestamp can hold. */
  const FIRST_STAMP := DateTime(Date(1677, 9, 21), 0, 12, 44)
  const LAST_STAMP := DateTime(Date(2262, 4, 11), 23, 47, 16)

  predicate InRange(t: DateTime) {
    !EarlierThan(t, FIRST_STAMP) && !EarlierThan(LAST_STAMP, t)
  }

  predicate IsDigit(c: char) {
    '0' <= c <= '9'
  }

  /** The characters that `\s` matches in a Python `str` pattern. */
  predicate IsSpace(c: char) {
    c == ' ' || '\t' <= c <= '\r' || '\U{1C}' <= c <= '\U{1F}' ||
    c == '\U{85}' || c == '\U{A0}' || c == '\U{1680}' || '\U{2000}' <= c <= '\U{200A}' ||
    c == '\U{2028}' || c == '\U{2029}' || c == '\U{202F}' || c == '\U{205F}' || c == '\U{3000}'
  }

  /** The number of leading digits of `s`. */
  function DigitRun(s: string): (n: nat)
    ensures n <= |s|
    ensures forall i :: 0 <= i < n ==> IsDigit(s[i])
    ensures n < |s| ==> !IsDigit(s[n])
  {
    if |s| > 0 && IsDigit(s[0]) then 1 + DigitRun(s[1..]) else 0
  }

  /** The number of leading whitespace characters of `s`. */
  function SpaceRun(s: string): (n: nat)
    ensures n <= |s|
    ensures forall i :: 0 <= i < n ==> IsSpace(s[i])
    ensures n < |s| ==> !IsSpace(s[n])
  {
    if |s| > 0 && IsSpace(s[0]) then 1 + SpaceRun(s[1..]) else 0
  }

  /** The decimal value of a string of digits. */
  function DecimalValue(ds: string): nat
    requires forall i :: 0 <= i < |ds| ==> IsDigit(ds[i])
  {
    if |ds| == 0 then 0
    else
      var last := ds[|ds| - 1];
      assert IsDigit(last);
      DecimalValue(ds[..|ds| - 1]) * 10 + (last as int - '0' as int)
  }

  /**
   * A numeric field of `minLen` to `maxLen` digits whose value lies in
   * `lo..hi`; the next character, if any, is not a digit (every field of
   * the format is followed by a separator). Gives the value and the rest.
   */
  function Field(s: string, minLen: nat, maxLen: nat, lo: int, hi: int): Option<(int, string)>
  {
    var n := DigitRun(s);
    if minLen <= n <= maxLen && lo <= DecimalValue(s[..n]) <= hi then
      Some((DecimalValue(s[..n]), s[n..]))
    else
      None
  }

  /** `%d`: one or two digits for 1..31, or a space and one digit 1..9. */
  function DayField(s: string): Option<(int, string)> {
    if |s| > 0 && s[0] == ' ' then Field(s[1..], 1, 1, 1, 9) else Field(s, 1, 2, 1, 31)
  }

  /** `%p` (in the C locale): `AM` or `PM` in any letter case; true for PM. */
  function AmPmField(s: string): Option<(bool, string)> {
    if |s| >= 2 && (s[1] == 'M' || s[1] == 'm') then
      if s[0] == 'A' || s[0] == 'a' then Some((false, s[2..]))
      else if s[0] == 'P' || s[0] == 'p' then Some((true, s[2..]))
      else None
    else None
  }

  /** A run of one or more whitespace characters. */
  function Spaces(s: string): Option<string> {
    var n := SpaceRun(s);
    if n > 0 then Some(s[n..]) else None
  }

  function Literal(s: string, c: char): Option<string> {
    if |s| > 0 && s[0] == c then Some(s[1..]) else None
  }

  /** The pieces a `strptime` format is made of. */
  datatype Directive =
    | Day       // %d
    | Month     // %m
    | Year      // %Y
    | Hour      // %I
    | Minute    // %M
    | Second    // %S
    | AmPm      // %p
    | Blank     // a run of whitespace in the format
    | Lit(c: char)

  /** A format as the sequence of its directives. */
  datatype Format = End | Then(head: Directive, tail: Format)

  /** ` %I:%M:%S %p`, the part after the year. */
  const CLOCK_FORMAT: Format :=
    Then(Blank, Then(Hour, Then(Lit(':'), Then(Minute, Then(Lit(':'), Then(Second, Then(Blank, Then(AmPm, End))))))))

  /** The format the pipeline passes to `pd.to_datetime`, `%d/%m/%Y %I:%M:%S %p`. */
  const FORMAT: Format :=
    Then(Day, Then(Lit('/'), Then(Month, Then(Lit('/'), Then(Year, CLOCK_FORMAT)))))

  /** The fields read so far; `strptime` starts from 1 January 1900, midnight, AM. */
  datatype Fields = Fields(day: int, month: int, year: int, hour: int, minute: int, second: int, pm: bool)

  const DEFAULT_FIELDS := Fields(1, 1, 1900, 12, 0, 0, false)

  /** `%I` with `%p`: 12 AM is hour 0, 12 PM is hour 12, other PM hours add 12. */
  function To24Hour(h: int, pm: bool): int {
    if pm then (if h == 12 then 12 else h + 12) else (if h == 12 then 0 else h)
  }

  /**
   * The timestamp the fields name, if it is a real calendar day and a
   * nanosecond timestamp can hold it.
   */
  function Checked(f: Fields): (r: Option<DateTime>)
    ensures r.Some? ==> ValidDateTime(r.value) && InRange(r.value)
  {
    var t := DateTime(Date(f.year, f.month, f.day), To24Hour(f.hour, f.pm), f.minute, f.second);
    if ValidDateTime(t) && InRange(t) then Some(t) else None
  }

  /**
   * Matches `s` against the directives, left to right, recording each
   * field; the string must be used up exactly, and the fields read must
   * then make a valid timestamp.
   */
  function Scan(fmt: Format, s: string, f: Fields): (r: Option<DateTime>)
    ensures r.Some? ==> ValidDateTime(r.value) && InRange(r.value)
  {
    match fmt
    case End => if s == [] then Checked(f) else None
    case Then(d, next) =>
      match d
      case Day => var p :- DayField(s); Scan(next, p.1, f.(day := p.0))
      case Month => var p :- Field(s, 1, 2, 1, 12); Scan(next, p.1, f.(month := p.0))
      case Year => var p :- Field(s, 4, 4, 0, 9999); Scan(next, p.1, f.(year := p.0))
      case Hour => var p :- Field(s, 1, 2, 1, 12); Scan(next, p.1, f.(hour := p.0))
      case Minute => var p :- Field(s, 1, 2, 0, 59); Scan(next, p.1, f.(minute := p.0))
      case Second => var p :- Field(s, 1, 2, 0, 59); Scan(next, p.1, f.(second := p.0))
      case AmPm => var p :- AmPmField(s); Scan(next, p.1, f.(pm := p.0))
      case Blank => var rest :- Spaces(s); Scan(next, rest, f)
      case Lit(c) => var rest :- Literal(s, c); Scan(next, rest, f)
  }

  /**
   * `pd.to_datetime(s, format='%d/%m/%Y %I:%M:%S %p')` for one string:
   * None where pandas raises.
   */
  function ParseStamp(s: string): (r: Option<DateTime>)
    ensures r.Some? ==> ValidDateTime(r.value) && InRange(r.value)
  {
    Scan(FORMAT, s, DEFAULT_FIELDS)
  }

  /** `.dt.date` after the parse: the calendar day, time of day dropped. */
  function StampDate(s: string): (r: Option<Date>)
    ensures r.Some? <==> ParseStamp(s).Some?
    ensures r.Some? ==> ValidDate(r.value) && r.value == ParseStamp(s).value.date
  {
    match ParseStamp(s)
    case None => None
    case Some(t) => Some(t.date)
  }

  // ---- The canonical rendering of a timestamp in the same format ----

  function DigitChar(n: nat): (c: char)
    requires n < 10
    ensures IsDigit(c) && c as int - '0' as int == n
  {
    ('0' as int + n) as char
  }

  function Pad2(n: nat): string
    requires n < 100
  {
    [DigitChar(n / 10), DigitChar(n % 10)]
  }

  function Pad4(n: nat): string
    requires n < 10000
  {
    Pad2(n / 100) + Pad2(n % 100)
  }

  function ClockHour(h: int): int
    requires 0 <= h < 24
  {
    if h % 12 == 0 then 12 else h % 12
  }

  /** Every field fits the width the format gives it. */
  predicate Renderable(t: DateTime) {
    1 <= t.date.day <= 31 && 1 <= t.date.month <= 12 && 0 <= t.date.year < 10000 &&
    0 <= t.hour < 24 && 0 <= t.minute < 60 && 0 <= t.second < 60
  }

  /** Writes `t` as `DD/MM/YYYY hh:mm:ss AM` (or `PM`), zero-padded. */
  function FormatStamp(t: DateTime): string
    requires Renderable(t)
  {
    Pad2(t.date.day) + ("/" + (Pad2(t.date.month) + ("/" + (Pad4(t.date.year) +
    (" " + (Pad2(ClockHour(t.hour)) + (":" + (Pad2(t.minute) + (":" + (Pad2(t.second) +
    (" " + (if t.hour < 12 then "AM" else "PM"))))))))))))
  }

  /** `%p` with `%I` recovers the hour that `ClockHour` and the meridiem encode. */
  lemma ClockHourInverse(h: int)
    requires 0 <= h < 24
    ensures 1 <= ClockHour(h) <= 12
    ensures To24Hour(ClockHour(h), h >= 12) == h
  {
    if h < 12 {
      assert h % 12 == h;
    } else {
      assert h % 12 == h - 12;
    }
  }

  lemma InRangeYear(t: DateTime)
    requires InRange(t)
    ensures 1677 <= t.date.year <= 2262
  {
  }

  /** A run of `k` digits ended by a non-digit or by the end of `s` is the leading run. */
  lemma DigitRunIs(s: string, k: nat)
    requires k <= |s|
    requires forall i :: 0 <= i < k ==> IsDigit(s[i])
    requires k == |s| || !IsDigit(s[k])
    ensures DigitRun(s) == k
  {
  }

  /** Two digits followed by a non-digit read back as the number they write. */
  lemma {:induction false} FieldOfPad2(n: nat, rest: string, minLen: nat, lo: int, hi: int)
    requires n < 100 && minLen <= 2 && lo <= n <= hi
    requires rest == [] || !IsDigit(rest[0])
    ensures Field(Pad2(n) + rest, minLen, 2, lo, hi) == Some((n, rest))
  {
    var s := Pad2(n) + rest;
    DigitRunIs(s, 2);
    var ds := s[..2];
    assert ds == Pad2(n);
    assert ds[..1][..0] == [];
    assert DecimalValue(ds[..1]) == n / 10;
    assert DecimalValue(ds) == n;
    assert s[2..] == rest;
  }

  /** Four digits followed by a non-digit read back as the year they write. */
  lemma {:induction false} FieldOfPad4(n: nat, rest: string)
    requires n < 10000
    requires rest == [] || !IsDigit(rest[0])
    ensures Field(Pad4(n) + rest, 4, 4, 0, 9999) == Some((n, rest))
  {
    var s := Pad4(n) + rest;
    assert s[..4] == Pad4(n);
    assert s[4..] == rest;
    DigitRunIs(s, 4);
    var ds := s[..4];
    var hi, lo := n / 100, n % 100;
    assert ds == Pad4(n) == [DigitChar(hi / 10), DigitChar(hi % 10), DigitChar(lo / 10), DigitChar(lo % 10)];
    assert ds[..1][..0] == [];
    assert ds[..2][..1] == ds[..1];
    assert ds[..3][..2] == ds[..2];
    assert DecimalValue(ds[..1]) == hi / 10;
    assert DecimalValue(ds[..2]) == hi;
    assert DecimalValue(ds[..3]) == hi * 10 + lo / 10;
    assert DecimalValue(ds) == (hi * 10 + lo / 10) * 10 + lo % 10;
    assert DecimalValue(ds) == n;
  }

  lemma SpacesOfBlank(rest: string)
    requires |rest| > 0 && !IsSpace(rest[0])
    ensures Spaces(" " + rest) == Some(rest)
  {
    var s := " " + rest;
    assert s[1..] == rest;
  }

  lemma AmPmOfFormat(pm: bool)
    ensures AmPmField(if pm then "PM" else "AM") == Some((pm, []))
  {
    var m := if pm then "PM" else "AM";
    assert m[2..] == [];
  }

  // One lemma per directive: each reads back its own piece of the rendering.

  lemma {:induction false} StepDay(n: nat, rest: string, next: Format, f: Fields)
    requires 1 <= n <= 31 && |rest| > 0 && rest[0] == '/'
    ensures Scan(Then(Day, next), Pad2(n) + rest, f) == Scan(next, rest, f.(day := n))
  {
    FieldOfPad2(n, rest, 1, 1, 31);
  }

  lemma {:induction false} StepMonth(n: nat, rest: string, next: Format, f: Fields)
    requires 1 <= n <= 12 && |rest| > 0 && rest[0] == '/'
    ensures Scan(Then(Month, next), Pad2(n) + rest, f) == Scan(next, rest, f.(month := n))
  {
    FieldOfPad2(n, rest, 1, 1, 12);
  }

  lemma {:induction false} StepYear(n: nat, rest: string, next: Format, f: Fields)
    requires n < 10000 && |rest| > 0 && rest[0] == ' '
    ensures Scan(Then(Year, next), Pad4(n) + rest, f) == Scan(next, rest, f.(year := n))
  {
    FieldOfPad4(n, rest);
  }

  lemma {:induction false} StepHour(n: nat, rest: string, next: Format, f: Fields)
    requires 1 <= n <= 12 && |rest| > 0 && rest[0] == ':'
    ensures Scan(Then(Hour, next), Pad2(n) + rest, f) == Scan(next, rest, f.(hour := n))
  {
    FieldOfPad2(n, rest, 1, 1, 12);
  }

  lemma {:induction false} StepMinute(n: nat, rest: string, next: Format, f: Fields)
    requires n <= 59 && |rest| > 0 && rest[0] == ':'
    ensures Scan(Then(Minute, next), Pad2(n) + rest, f) == Scan(next, rest, f.(minute := n))
  {
    FieldOfPad2(n, rest, 1, 0, 59);
  }

  lemma {:induction false} StepSecond(n: nat, rest: string, next: Format, f: Fields)
    requires n <= 59 && |rest| > 0 && rest[0] == ' '
    ensures Scan(Then(Second, next), Pad2(n) + rest, f) == Scan(next, rest, f.(second := n))
  {
    FieldOfPad2(n, rest, 1, 0, 59);
  }

  lemma StepBlank(rest: string, next: Format, f: Fields)
    requires |rest| > 0 && !IsSpace(rest[0])
    ensures Scan(Then(Blank, next), " " + rest, f) == Scan(next, rest, f)
  {
    SpacesOfBlank(rest);
  }

  lemma StepLit(c: char, rest: string, next: Format, f: Fields)
    ensures Scan(Then(Lit(c), next), [c] + rest, f) == Scan(next, rest, f)
  {
    assert ([c] + rest)[1..] == rest;
  }

  lemma StepAmPm(pm: bool, f: Fields)
    ensures Scan(Then(AmPm, End), if pm then "PM" else "AM", f) == Checked(f.(pm := pm))
  {
    AmPmOfFormat(pm);
  }

  /** The date part of the canonical rendering fills in day, month and year. */
  lemma {:induction false} ScanDate(d: Date, rest: string, f: Fields)
    requires 1 <= d.day <= 31 && 1 <= d.month <= 12 && 0 <= d.year < 10000
    requires |rest| > 0 && rest[0] == ' '
    ensures Scan(FORMAT, Pad2(d.day) + ("/" + (Pad2(d.month) + ("/" + (Pad4(d.year) + rest)))), f)
         == Scan(CLOCK_FORMAT, rest, f.(day := d.day, month := d.month, year := d.year))
  {
    var fm := FORMAT;
    var r4 := Pad4(d.year) + rest;
    var r2 := Pad2(d.month) + ("/" + r4);
    var f1 := f.(day := d.day);
    var f2 := f1.(month := d.month);
    StepDay(d.day, "/" + r2, fm.tail, f);
    StepLit('/', r2, fm.tail.tail, f1);
    StepMonth(d.month, "/" + r4, fm.tail.tail.tail, f1);
    StepLit('/', r4, fm.tail.tail.tail.tail, f2);
    StepYear(d.year, rest, CLOCK_FORMAT, f2);
  }

  /** The time part of the canonical rendering fills in the clock fields and ends the string. */
  lemma {:induction false} ScanClock(t: DateTime, f: Fields)
    requires 0 <= t.hour < 24 && 0 <= t.minute < 60 && 0 <= t.second < 60
    ensures Scan(CLOCK_FORMAT, " " + (Pad2(ClockHour(t.hour)) + (":" + (Pad2(t.minute) + (":" + (Pad2(t.second) +
              (" " + (if t.hour < 12 then "AM" else "PM"))))))), f)
         == Checked(f.(hour := ClockHour(t.hour), minute := t.minute, second := t.second, pm := t.hour >= 12))
  {
    var c := CLOCK_FORMAT;
    var h := ClockHour(t.hour);
    var pm := t.hour >= 12;
    var r12 := if pm then "PM" else "AM";
    var r10 := Pad2(t.second) + (" " + r12);
    var r8 := Pad2(t.minute) + (":" + r10);
    var r6 := Pad2(h) + (":" + r8);
    var f4 := f.(hour := h);
    var f5 := f4.(minute := t.minute);
    var f6 := f5.(second := t.second);
    ClockHourInverse(t.hour);
    StepBlank(r6, c.tail, f);
    StepHour(h, ":" + r8, c.tail.tail, f);
    StepLit(':', r8, c.tail.tail.tail, f4);
    StepMinute(t.minute, ":" + r10, c.tail.tail.tail.tail, f4);
    StepLit(':', r10, c.tail.tail.tail.tail.tail, f5);
    StepSecond(t.second, " " + r12, c.tail.tail.tail.tail.tail.tail, f5);
    StepBlank(r12, c.tail.tail.tail.tail.tail.tail.tail, f6);
    StepAmPm(pm, f6);
  }

  /**
   * Round trip: the canonical rendering of every timestamp the parser can
   * return parses back to that timestamp.
   */
  lemma {:induction false} ParseFormat(t: DateTime)
    requires ValidDateTime(t) && InRange(t)
    ensures Renderable(t)
    ensures ParseStamp(FormatStamp(t)) == Some(t)
  {
    InRangeYear(t);
    ReadBack(t);
  }

  /** Parsing a rendering recovers its fields, before they are checked. */
  lemma {:induction false} ReadBack(t: DateTime)
    requires Renderable(t)
    ensures Scan(FORMAT, FormatStamp(t), DEFAULT_FIELDS) ==
      Checked(Fields(t.date.day, t.date.month, t.date.year, ClockHour(t.hour), t.minute, t.second, t.hour >= 12))
    ensures To24Hour(ClockHour(t.hour), t.hour >= 12) == t.hour
  {
    var clock := Pad2(ClockHour(t.hour)) + (":" + (Pad2(t.minute) + (":" + (Pad2(t.second) +
                 (" " + (if t.hour < 12 then "AM" else "PM"))))));
    var d := t.date;
    var f := DEFAULT_FIELDS.(day := d.day, month := d.month, year := d.year);
    ScanDate(d, " " + clock, DEFAULT_FIELDS);
    ScanClock(t, f);
    ClockHourInverse(t.hour);
    assert Scan(FORMAT, FormatStamp(t), DEFAULT_FIELDS) ==
      Checked(f.(hour := ClockHour(t.hour), minute := t.minute, second := t.second, pm := t.hour >= 12));
  }

  /**
   * Date truncation: readings taken at any two times of the same day fall
   * on that day.
   */
  lemma TimeOfDayDropped(a: DateTime, b: DateTime)
    requires ValidDateTime(a) && InRange(a) && ValidDateTime(b) && InRange(b)
    requires a.date == b.date
    ensures Renderable(a) && Renderable(b)
    ensures StampDate(FormatStamp(a)) == StampDate(FormatStamp(b)) == Some(a.date)
  {
    ParseFormat(a);
    ParseFormat(b);
  }

  /** `15/03/2024 08:00:00 AM` falls on 15 March 2024. */
  lemma MorningExample()
    ensures StampDate("15/03/2024 08:00:00 AM") == Some(Date(2024, 3, 15))
  {
    var morning := DateTime(Date(2024, 3, 15), 8, 0, 0);
    assert FormatStamp(morning) == "15/03/2024 08:00:00 AM";
    ParseFormat(morning);
  }

  /** `15/03/2024 11:00:00 PM` falls on 15 March 2024 as well. */
  lemma NightExample()
    ensures StampDate("15/03/2024 11:00:00 PM") == Some(Date(2024, 3, 15))
  {
    var night := DateTime(Date(2024, 3, 15), 23, 0, 0);
    assert FormatStamp(night) == "15/03/2024 11:00:00 PM";
    ParseFormat(night);
  }

  /**
   * A day the month does not have is rejected, although every field is in
   * its range.
   */
  lemma ImpossibleDayRejected(t: DateTime)
    requires Renderable(t) && !ValidDate(t.date)
    ensures ParseStamp(FormatStamp(t)) == None
  {
    ReadBack(t);
  }

  /** 31 February 2024 is not a date. */
  lemma ImpossibleDayExample()
    ensures ParseStamp("31/02/2024 08:00:00 AM") == None
  {
    var t := DateTime(Date(2024, 2, 31), 8, 0, 0);
    assert FormatStamp(t) == "31/02/2024 08:00:00 AM";
    ImpossibleDayRejected(t);
  }

  /** An ISO-style stamp does not match the day-first format. */
  lemma IsoStampRejected()
    ensures ParseStamp("2024-03-15 08:00:00") == None
  {
    var s := "2024-03-15 08:00:00";
    assert IsDigit(s[0]) && IsDigit(s[1]) && IsDigit(s[2]) && IsDigit(s[3]) && !IsDigit(s[4]);
    assert DigitRun(s) == 4;
  }
}
