/**
  * Stored time stamps: RFC 3339 text with the fraction's trailing zeros dropped, used by the store both
  * as a value to parse back and as a sort key. An instant is a number of nanoseconds since the start
  * of year 0, UTC.
  */
module Timestamps {
  import opened Strings

  type Instant = nat

  const SECOND := 1_000_000_000
  const DAY := 86400

  // ---------- the calendar ----------

  predicate Leap(year: nat) {
    year % 4 == 0 && (year % 100 != 0 || year % 400 == 0)
  }

  function DaysInMonth(year: nat, month: nat): nat {
    if month == 2 then (if Leap(year) then 29 else 28)
    else if month in {4, 6, 9, 11} then 30
    else 31
  }

  /** Days of the year before the given month; month 13 stands for the end of the year. */
  function DaysBeforeMonth(year: nat, month: nat): nat
    requires 1 <= month
  {
    if month == 1 then 0 else DaysBeforeMonth(year, month - 1) + DaysInMonth(year, month - 1)
  }

  function DaysBeforeYear(year: nat): nat {
    if year == 0 then 0 else DaysBeforeYear(year - 1) + DaysBeforeMonth(year - 1, 13)
  }

  function DayNumber(year: nat, month: nat, day: nat): nat
    requires 1 <= month && 1 <= day
  {
    DaysBeforeYear(year) + DaysBeforeMonth(year, month) + day - 1
  }

  lemma {:induction false} MonthsAscend(year: nat, low: nat, high: nat)
    requires 1 <= low < high
    ensures DaysBeforeMonth(year, low) + DaysInMonth(year, low) <= DaysBeforeMonth(year, high)
  {
    if low + 1 < high {
      MonthsAscend(year, low, high - 1);
    }
  }

  lemma {:induction false} YearsAscend(low: nat, high: nat)
    requires low < high
    ensures DaysBeforeYear(low) + DaysBeforeMonth(low, 13) <= DaysBeforeYear(high)
  {
    if low + 1 < high {
      YearsAscend(low, high - 1);
    }
  }

  function YearOf(days: nat, from: nat): (year: nat)
    requires DaysBeforeYear(from) <= days
    ensures DaysBeforeYear(year) <= days < DaysBeforeYear(year + 1)
    decreases days - DaysBeforeYear(from)
  {
    MonthsAscend(from, 1, 13);
    if days < DaysBeforeYear(from + 1) then from else YearOf(days, from + 1)
  }

  function MonthOf(days: nat, year: nat, from: nat): (month: nat)
    requires 1 <= from <= 12 && DaysBeforeMonth(year, from) <= days < DaysBeforeMonth(year, 13)
    ensures from <= month <= 12
    ensures DaysBeforeMonth(year, month) <= days < DaysBeforeMonth(year, month + 1)
    decreases 12 - from
  {
    if days < DaysBeforeMonth(year, from + 1) then from else MonthOf(days, year, from + 1)
  }

  /** An instant broken down as the layout prints it. */
  datatype Civil = Civil(year: nat, month: nat, day: nat, hour: nat, minute: nat, second: nat, nanos: nat)

  predicate ValidCivil(c: Civil) {
    && 1 <= c.month <= 12
    && 1 <= c.day <= DaysInMonth(c.year, c.month)
    && c.hour < 24 && c.minute < 60 && c.second < 60 && c.nanos < SECOND
  }

  function InstantOf(c: Civil): Instant
    requires ValidCivil(c)
  {
    (DayNumber(c.year, c.month, c.day) * DAY + c.hour * 3600 + c.minute * 60 + c.second) * SECOND + c.nanos
  }

  lemma TimeOfDay(rest: nat)
    requires rest < DAY
    ensures rest / 3600 < 24 && rest % 3600 / 60 < 60
    ensures rest / 3600 * 3600 + rest % 3600 / 60 * 60 + rest % 60 == rest
  {
  }

  lemma Recombined(t: nat)
    ensures t == t / SECOND * SECOND + t % SECOND
    ensures t / SECOND == t / SECOND / DAY * DAY + t / SECOND % DAY
  {
  }

  function CivilOf(t: Instant): (c: Civil)
    ensures ValidCivil(c) && InstantOf(c) == t
  {
    Recombined(t);
    TimeOfDay(t / SECOND % DAY);
    var seconds, nanos := t / SECOND, t % SECOND;
    var days, rest := seconds / DAY, seconds % DAY;
    var year := YearOf(days, 0);
    var month := MonthOf(days - DaysBeforeYear(year), year, 1);
    var day := days - DaysBeforeYear(year) - DaysBeforeMonth(year, month) + 1;
    Civil(year, month, day, rest / 3600, rest % 3600 / 60, rest % 60, nanos)
  }

  /** Field by field comparison, largest unit first, down to whole seconds. */
  predicate EarlierSecond(a: Civil, b: Civil) {
    || a.year < b.year
    || (a.year == b.year && (a.month < b.month
    || (a.month == b.month && (a.day < b.day
    || (a.day == b.day && (a.hour < b.hour
    || (a.hour == b.hour && (a.minute < b.minute
    || (a.minute == b.minute && a.second < b.second)))))))))
  }

  predicate SameSecond(a: Civil, b: Civil) {
    a.(nanos := 0) == b.(nanos := 0)
  }

  lemma DaysAscend(a: Civil, b: Civil)
    requires ValidCivil(a) && ValidCivil(b)
    requires a.year < b.year || (a.year == b.year && (a.month < b.month || (a.month == b.month && a.day < b.day)))
    ensures DayNumber(a.year, a.month, a.day) < DayNumber(b.year, b.month, b.day)
  {
    MonthsAscend(a.year, a.month, 13);
    if a.year < b.year {
      YearsAscend(a.year, b.year);
    } else if a.month < b.month {
      MonthsAscend(a.year, a.month, b.month);
    }
  }

  lemma EarlierSecondIsEarlier(a: Civil, b: Civil)
    requires ValidCivil(a) && ValidCivil(b) && EarlierSecond(a, b)
    ensures InstantOf(a) < InstantOf(b)
  {
    if a.year != b.year || a.month != b.month || a.day != b.day {
      DaysAscend(a, b);
    }
    var sa := DayNumber(a.year, a.month, a.day) * DAY + a.hour * 3600 + a.minute * 60 + a.second;
    var sb := DayNumber(b.year, b.month, b.day) * DAY + b.hour * 3600 + b.minute * 60 + b.second;
    assert sa < sb;
  }

  /** Chronological order is the order of the fields. */
  lemma Chronology(a: Civil, b: Civil)
    requires ValidCivil(a) && ValidCivil(b)
    ensures InstantOf(a) < InstantOf(b) <==> EarlierSecond(a, b) || (SameSecond(a, b) && a.nanos < b.nanos)
  {
    if EarlierSecond(a, b) {
      EarlierSecondIsEarlier(a, b);
    } else if EarlierSecond(b, a) {
      EarlierSecondIsEarlier(b, a);
    }
  }

  // ---------- printing ----------

  function Digit(n: nat): char
    requires n < 10
  {
    '0' + n as char
  }

  /** The last `width` decimal digits. */
  function Digits(n: nat, width: nat): (s: string)
    ensures |s| == width && forall i :: 0 <= i < width ==> '0' <= s[i] <= '9'
  {
    if width == 0 then "" else Digits(n / 10, width - 1) + [Digit(n % 10)]
  }

  function Pow10(k: nat): (p: nat)
    ensures p > 0
  {
    if k == 0 then 1 else 10 * Pow10(k - 1)
  }

  predicate AllZeros(s: string) {
    forall i :: 0 <= i < |s| ==> s[i] == '0'
  }

  function TrimZeros(s: string): (r: string)
    ensures |r| <= |s|
  {
    if AllZeros(s) then "" else [s[0]] + TrimZeros(s[1..])
  }

  function Fraction(nanos: nat): string {
    TrimZeros(Digits(nanos, 9))
  }

  function FractionText(nanos: nat): string {
    (if Fraction(nanos) == "" then "" else "." + Fraction(nanos)) + "Z"
  }

  /** Years beyond 9999 print with more than four digits, as Go does. */
  function YearText(year: nat): string {
    if year < 10000 then Digits(year, 4) else YearText(year / 10) + [Digit(year % 10)]
  }

  function FormatCivil(c: Civil): string {
    YearText(c.year) + ("-" + (Digits(c.month, 2) + ("-" + (Digits(c.day, 2) + ("T" +
    (Digits(c.hour, 2) + (":" + (Digits(c.minute, 2) + (":" + (Digits(c.second, 2) + FractionText(c.nanos)))))))))))
  }

  /** `t.UTC().Format(time.RFC3339Nano)`. */
  function Format(t: Instant): string {
    FormatCivil(CivilOf(t))
  }

  /** The instants whose year has four digits. */
  predicate InCalendar(t: Instant) {
    CivilOf(t).year <= 9999
  }

  lemma InCalendarDown(s: Instant, t: Instant)
    requires s <= t && InCalendar(t)
    ensures InCalendar(s)
  {
    Chronology(CivilOf(t), CivilOf(s));
    Chronology(CivilOf(s), CivilOf(t));
  }

  // ---------- the calendar by numbers ----------

  /** The first day of each month, counted from the start of the year, and the length of the year. */
  lemma MonthStarts(common: nat, leap: nat)
    requires common % 4 != 0 && leap % 4 == 0 && leap % 100 != 0
    ensures seq(13, m requires 0 <= m < 13 => DaysBeforeMonth(common, m + 1)) ==
            [0, 31, 59, 90, 120, 151, 181, 212, 243, 273, 304, 334, 365]
    ensures seq(13, m requires 0 <= m < 13 => DaysBeforeMonth(leap, m + 1)) ==
            [0, 31, 60, 91, 121, 152, 182, 213, 244, 274, 305, 335, 366]
  {
    Quarters(common, 0);
    Quarters(leap, 1);
  }

  /** The starts of the months one after the other, `extra` being the leap day. */
  lemma Quarters(year: nat, extra: nat)
    requires extra == (if Leap(year) then 1 else 0)
    ensures DaysBeforeMonth(year, 1) == 0 && DaysBeforeMonth(year, 2) == 31 && DaysBeforeMonth(year, 3) == 59 + extra
    ensures DaysBeforeMonth(year, 4) == 90 + extra && DaysBeforeMonth(year, 5) == 120 + extra
    ensures DaysBeforeMonth(year, 6) == 151 + extra && DaysBeforeMonth(year, 7) == 181 + extra
    ensures DaysBeforeMonth(year, 8) == 212 + extra && DaysBeforeMonth(year, 9) == 243 + extra
    ensures DaysBeforeMonth(year, 10) == 273 + extra && DaysBeforeMonth(year, 11) == 304 + extra
    ensures DaysBeforeMonth(year, 12) == 334 + extra && DaysBeforeMonth(year, 13) == 365 + extra
  {
    hide DaysBeforeMonth;
    NextMonth(year, 1);
    NextMonth(year, 2);
    NextMonth(year, 3);
    NextMonth(year, 4);
    NextMonth(year, 5);
    NextMonth(year, 6);
    NextMonth(year, 7);
    NextMonth(year, 8);
    NextMonth(year, 9);
    NextMonth(year, 10);
    NextMonth(year, 11);
    NextMonth(year, 12);
  }

  lemma NextMonth(year: nat, month: nat)
    requires month >= 1
    ensures DaysBeforeMonth(year, 1) == 0
    ensures DaysBeforeMonth(year, month + 1) == DaysBeforeMonth(year, month) + DaysInMonth(year, month)
  {
  }

  /** How many leap years there are before a year: centuries are leap years only every fourth time. */
  function LeapsBefore(year: nat): int {
    (year + 3) / 4 - (year + 99) / 100 + (year + 399) / 400
  }

  lemma YearStart(year: nat)
    ensures DaysBeforeYear(year) == 365 * year + (year + 3) / 4 - (year + 99) / 100 + (year + 399) / 400
  {
    hide DaysBeforeYear;
    YearStartLeaps(year);
  }

  lemma YearZero()
    ensures DaysBeforeYear(0) == 0 && LeapsBefore(0) == 0
  {
  }

  lemma {:induction false} YearStartLeaps(year: nat)
    ensures DaysBeforeYear(year) == 365 * year + LeapsBefore(year)
  {
    hide *;
    if year == 0 {
      YearZero();
    } else {
      YearStartLeaps(year - 1);
      NextYear(year - 1);
      LeapCount(year - 1);
    }
  }

  lemma NextYear(year: nat)
    ensures DaysBeforeYear(year + 1) == DaysBeforeYear(year) + 365 + (if Leap(year) then 1 else 0)
  {
    Quarters(year, if Leap(year) then 1 else 0);
    hide DaysBeforeMonth, Leap;
  }

  lemma LeapCount(y: nat)
    ensures LeapsBefore(y + 1) == LeapsBefore(y) + (if Leap(y) then 1 else 0)
  {
    assert (y + 4) / 4 == (y + 3) / 4 + (if y % 4 == 0 then 1 else 0);
    assert (y + 100) / 100 == (y + 99) / 100 + (if y % 100 == 0 then 1 else 0);
    assert (y + 400) / 400 == (y + 399) / 400 + (if y % 400 == 0 then 1 else 0);
  }

  /** The fields of an instant are the only ones that make it up. */
  lemma OneCivil(c: Civil)
    requires ValidCivil(c)
    ensures CivilOf(InstantOf(c)) == c
  {
    var d := CivilOf(InstantOf(c));
    Chronology(c, d);
    Chronology(d, c);
    hide CivilOf, InstantOf;
  }

  // ---------- parsing ----------

  function Value(s: string): nat
    requires forall i :: 0 <= i < |s| ==> '0' <= s[i] <= '9'
  {
    if s == "" then 0 else Value(s[..|s| - 1]) * 10 + (s[|s| - 1] - '0') as nat
  }

  predicate AllDigits(s: string) {
    forall i :: 0 <= i < |s| ==> '0' <= s[i] <= '9'
  }

  datatype Read = Fail | Got(value: nat, rest: string)

  function ReadNumber(s: string, width: nat): Read {
    if |s| >= width && AllDigits(s[..width]) then Got(Value(s[..width]), s[width..]) else Fail
  }

  /** A number of the given width behind a one-character separator. */
  function ReadAfter(separator: char, s: string, width: nat): Read {
    if s != "" && s[0] == separator then ReadNumber(s[1..], width) else Fail
  }

  function DigitRun(s: string): (k: nat)
    ensures k <= |s| && AllDigits(s[..k])
    ensures k < |s| ==> !('0' <= s[k] <= '9')
  {
    if s != "" && '0' <= s[0] <= '9' then
      var k := DigitRun(s[1..]) + 1;
      assert s[..k] == [s[0]] + s[1..][..k - 1];
      k
    else 0
  }

  /** The first nine digits of the fraction, filled up with zeros. */
  function Nine(digits: string): (s: string)
    requires AllDigits(digits)
    ensures |s| == 9 && AllDigits(s)
  {
    if |digits| >= 9 then digits[..9] else digits + seq(9 - |digits|, _ => '0')
  }

  /** The optional fraction and the zone letter, which must end the text. */
  function ReadFraction(s: string): Option<nat> {
    if s == "Z" then Some(0)
    else if s != "" && s[0] == '.' then
      var k := DigitRun(s[1..]);
      if k > 0 && s[1..][k..] == "Z" then Some(Value(Nine(s[1..][..k]))) else None
    else None
  }

  function Parse(text: string): Option<Instant> {
    var year := ReadNumber(text, 4);
    if year.Fail? then None else
    var month := ReadAfter('-', year.rest, 2);
    if month.Fail? then None else
    var day := ReadAfter('-', month.rest, 2);
    if day.Fail? then None else
    var hour := ReadAfter('T', day.rest, 2);
    if hour.Fail? then None else
    var minute := ReadAfter(':', hour.rest, 2);
    if minute.Fail? then None else
    var second := ReadAfter(':', minute.rest, 2);
    if second.Fail? then None else
    var nanos := ReadFraction(second.rest);
    if nanos.None? then None else
    var c := Civil(year.value, month.value, day.value, hour.value, minute.value, second.value, nanos.value);
    if ValidCivil(c) then Some(InstantOf(c)) else None
  }

  /** Go's zero time, the first instant of year 1. */
  const ZERO_TIME: Instant := InstantOf(Civil(1, 1, 1, 0, 0, 0, 0))

  /** Text that does not parse, the empty text included, stands for the zero time. */
  function ParseStored(text: string): Instant {
    if Parse(text).Some? then Parse(text).value else ZERO_TIME
  }

  // ---------- format then parse ----------

  lemma {:induction false} ValueDigits(n: nat, width: nat)
    requires n < Pow10(width)
    ensures Value(Digits(n, width)) == n
  {
    if width > 0 {
      ValueDigits(n / 10, width - 1);
      var s := Digits(n, width);
      assert s[..width - 1] == Digits(n / 10, width - 1);
    }
  }

  lemma ReadDigits(n: nat, width: nat, rest: string)
    requires n < Pow10(width)
    ensures ReadNumber(Digits(n, width) + rest, width) == Got(n, rest)
  {
    var s := Digits(n, width) + rest;
    assert s[..width] == Digits(n, width) && s[width..] == rest;
    ValueDigits(n, width);
  }

  lemma ReadField(separator: char, n: nat, rest: string)
    requires n < 100
    ensures ReadAfter(separator, [separator] + (Digits(n, 2) + rest), 2) == Got(n, rest)
  {
    assert Pow10(2) == 100;
    assert ([separator] + (Digits(n, 2) + rest))[1..] == Digits(n, 2) + rest;
    ReadDigits(n, 2, rest);
  }

  lemma {:induction false} TrimZerosRefill(s: string)
    ensures s == TrimZeros(s) + seq(|s| - |TrimZeros(s)|, _ => '0')
    ensures AllDigits(s) ==> AllDigits(TrimZeros(s))
  {
    if !AllZeros(s) {
      TrimZerosRefill(s[1..]);
    }
  }

  lemma NineRefills(d: string)
    requires |d| == 9 && AllDigits(d)
    ensures AllDigits(TrimZeros(d)) && Nine(TrimZeros(d)) == d
  {
    TrimZerosRefill(d);
    if |TrimZeros(d)| == 9 {
      assert seq(0, _ => '0') == "";
    }
  }

  lemma ReadDotted(f: string)
    requires f != "" && AllDigits(f)
    ensures ReadFraction("." + f + "Z") == Some(Value(Nine(f)))
  {
    var text := "." + f + "Z";
    assert text[1..] == f + "Z";
    RunOf(f);
    assert (f + "Z")[|f|..] == "Z" && (f + "Z")[..|f|] == f;
  }

  lemma {:induction false} RunOf(f: string)
    requires AllDigits(f)
    ensures DigitRun(f + "Z") == |f|
  {
    if f != "" {
      assert (f + "Z")[1..] == f[1..] + "Z";
      RunOf(f[1..]);
    }
  }

  lemma Pow10Nine()
    ensures Pow10(9) == SECOND
  {
    assert Pow10(3) == 1000;
    assert Pow10(6) == 1000000;
  }

  lemma ReadFractionText(nanos: nat)
    requires nanos < SECOND
    ensures ReadFraction(FractionText(nanos)) == Some(nanos)
  {
    FractionRefills(nanos);
    hide Digits, Value, Nine, ReadFraction, TrimZeros;
    if Fraction(nanos) == "" {
      assert "" + "Z" == "Z" && ReadFraction("Z") == Some(0) by { ReadBareZone(); }
      ZeroValue(9);
      NineOfNothing();
    } else {
      ReadDotted(Fraction(nanos));
    }
  }

  lemma ReadBareZone()
    ensures ReadFraction("Z") == Some(0)
  {
  }

  lemma NineOfNothing()
    ensures Nine("") == seq(9, _ => '0')
  {
    assert "" + seq(9, _ => '0') == seq(9, _ => '0');
  }

  lemma FractionRefills(nanos: nat)
    requires nanos < SECOND
    ensures AllDigits(Fraction(nanos)) && Value(Nine(Fraction(nanos))) == nanos
  {
    Pow10Nine();
    ValueDigits(nanos, 9);
    NineRefills(Digits(nanos, 9));
    hide Digits, Value, Nine, TrimZeros;
  }

  lemma {:induction false} ZeroValue(k: nat)
    ensures Value(seq(k, _ => '0')) == 0
  {
    if k > 0 {
      assert seq(k, _ => '0')[..k - 1] == seq(k - 1, _ => '0');
      ZeroValue(k - 1);
    }
  }

  lemma ParseFields(text: string, c: Civil, t1: string, t2: string, t3: string, t4: string, t5: string, t6: string)
    requires ValidCivil(c)
    requires ReadNumber(text, 4) == Got(c.year, t1)
    requires ReadAfter('-', t1, 2) == Got(c.month, t2)
    requires ReadAfter('-', t2, 2) == Got(c.day, t3)
    requires ReadAfter('T', t3, 2) == Got(c.hour, t4)
    requires ReadAfter(':', t4, 2) == Got(c.minute, t5)
    requires ReadAfter(':', t5, 2) == Got(c.second, t6)
    requires ReadFraction(t6) == Some(c.nanos)
    ensures Parse(text) == Some(InstantOf(c))
  {
  }

  lemma ParseFormatCivil(c: Civil)
    requires ValidCivil(c) && c.year <= 9999
    ensures Parse(FormatCivil(c)) == Some(InstantOf(c))
  {
    var t6 := FractionText(c.nanos);
    var t5 := ":" + (Digits(c.second, 2) + t6);
    var t4 := ":" + (Digits(c.minute, 2) + t5);
    var t3 := "T" + (Digits(c.hour, 2) + t4);
    var t2 := "-" + (Digits(c.day, 2) + t3);
    var t1 := "-" + (Digits(c.month, 2) + t2);
    assert FormatCivil(c) == Digits(c.year, 4) + t1;
    assert Pow10(4) == 10000 by { assert Pow10(2) == 100; }
    ReadDigits(c.year, 4, t1);
    ReadField('-', c.month, t2);
    ReadField('-', c.day, t3);
    ReadField('T', c.hour, t4);
    ReadField(':', c.minute, t5);
    ReadField(':', c.second, t6);
    ReadFractionText(c.nanos);
    ParseFields(FormatCivil(c), c, t1, t2, t3, t4, t5, t6);
  }

  /** What is written is read back, for every instant with a four-digit year. */
  lemma {:induction false} StampRoundTrip(t: Instant)
    requires InCalendar(t)
    ensures Parse(Format(t)) == Some(t) && ParseStored(Format(t)) == t
  {
    ParseFormatCivil(CivilOf(t));
  }

  /** Known texts: the epoch, and a quarter of a second before the end of a leap year. */
  lemma KnownStamps()
    ensures Parse("1970-01-01T00:00:00Z") == Some(719528 * DAY * SECOND)
    ensures Format(719528 * DAY * SECOND) == "1970-01-01T00:00:00Z"
    ensures Parse("2024-12-31T23:59:59.75Z") == Some((739616 * DAY + 86399) * SECOND + 750_000_000)
    ensures Format((739616 * DAY + 86399) * SECOND + 750_000_000) == "2024-12-31T23:59:59.75Z"
  {
    var epoch := Civil(1970, 1, 1, 0, 0, 0, 0);
    var late := Civil(2024, 12, 31, 23, 59, 59, 750_000_000);
    hide CivilOf, InstantOf, FormatCivil, Parse, DayNumber, ValidCivil;
    KnownDays();
    KnownTexts();
    KnownInstants();
    OneCivil(epoch);
    OneCivil(late);
    ParseFormatCivil(epoch);
    ParseFormatCivil(late);
  }

  lemma KnownDays()
    ensures DayNumber(1970, 1, 1) == 719528 && DayNumber(2024, 12, 31) == 739616
    ensures ValidCivil(Civil(1970, 1, 1, 0, 0, 0, 0)) && ValidCivil(Civil(2024, 12, 31, 23, 59, 59, 750_000_000))
  {
    hide DaysBeforeYear, DaysBeforeMonth;
    YearStart(1970);
    YearStart(2024);
    Quarters(1970, 0);
    Quarters(2024, 1);
  }

  lemma KnownInstants()
    ensures ValidCivil(Civil(1970, 1, 1, 0, 0, 0, 0)) && ValidCivil(Civil(2024, 12, 31, 23, 59, 59, 750_000_000))
    ensures InstantOf(Civil(1970, 1, 1, 0, 0, 0, 0)) == 719528 * DAY * SECOND
    ensures InstantOf(Civil(2024, 12, 31, 23, 59, 59, 750_000_000)) == (739616 * DAY + 86399) * SECOND + 750_000_000
  {
    hide DayNumber;
    KnownDays();
  }

  /** The zero time is the first of January of year 1; year 0 is a leap year. */
  lemma {:induction false} ZeroTimeIs()
    ensures ZERO_TIME == 366 * DAY * SECOND
  {
    hide DayNumber;
    FirstDay();
  }

  lemma FirstDay()
    ensures DayNumber(1, 1, 1) == 366
  {
    hide DaysBeforeYear;
    YearStart(1);
  }

  lemma KnownTexts()
    ensures FormatCivil(Civil(1970, 1, 1, 0, 0, 0, 0)) == "1970-01-01T00:00:00Z"
    ensures FormatCivil(Civil(2024, 12, 31, 23, 59, 59, 750_000_000)) == "2024-12-31T23:59:59.75Z"
  {
    hide Digits, FractionText, YearText;
    TwoDigits(0, "00");
    TwoDigits(1, "01");
    TwoDigits(12, "12");
    TwoDigits(23, "23");
    TwoDigits(31, "31");
    TwoDigits(59, "59");
    KnownYears();
    NoFraction();
    SomeFraction();
    EpochText();
    LateText();
  }

  lemma EpochText()
    ensures "1970" + ("-" + ("01" + ("-" + ("01" + ("T" + ("00" + (":" + ("00" + (":" + ("00" + "Z"))))))))))
            == "1970-01-01T00:00:00Z"
  {
  }

  lemma LateText()
    ensures "2024" + ("-" + ("12" + ("-" + ("31" + ("T" + ("23" + (":" + ("59" + (":" + ("59" + ".75Z"))))))))))
            == "2024-12-31T23:59:59.75Z"
  {
  }

  lemma KnownYears()
    ensures YearText(1970) == "1970" && YearText(2024) == "2024"
  {
    TwoDigits(19, "19");
    TwoDigits(70, "70");
    TwoDigits(20, "20");
    TwoDigits(24, "24");
    FourDigits(1970, "19", "70");
    FourDigits(2024, "20", "24");
    hide Digits;
    assert "19" + "70" == "1970" && "20" + "24" == "2024";
  }

  lemma TwoDigits(n: nat, text: string)
    requires n < 100 && |text| == 2 && text == [Digit(n / 10), Digit(n % 10)]
    ensures Digits(n, 2) == text
  {
    assert Digits(n / 10, 1) == "" + [Digit(n / 10)];
  }

  lemma FourDigits(n: nat, high: string, low: string)
    requires n < 10000 && high == Digits(n / 100, 2) && low == Digits(n % 100, 2)
    ensures Digits(n, 4) == high + low
  {
    assert n / 10 / 10 == n / 100 && n % 100 / 10 == n / 10 % 10 && n % 100 % 10 == n % 10;
    assert Digits(n, 4) == Digits(n / 10 / 10, 2) + [Digit(n / 10 % 10)] + [Digit(n % 10)];
  }

  lemma NoFraction()
    ensures FractionText(0) == "Z"
  {
    ZerosBehind(0, 0, 9);
    assert Pow10(9) > 0 && 0 * Pow10(9) == 0 && Digits(0, 0) == "";
    var zeros := seq(9, _ => '0');
    assert "" + zeros == zeros && AllZeros(zeros) && TrimZeros(zeros) == "";
    hide Digits;
    assert "" + "Z" == "Z";
  }

  lemma SomeFraction()
    ensures FractionText(750_000_000) == ".75Z"
  {
    assert Pow10(7) == 10_000_000 by { assert Pow10(4) == 10000; }
    ZerosBehind(75, 2, 7);
    assert Digits(75, 2) == "75";
    TrimZerosOf("75", 7);
    hide Digits, TrimZeros, Pow10;
    assert Fraction(750_000_000) == "75";
  }

  // ---------- text order ----------

  /** SQLite's default text comparison: byte by byte, a proper prefix first. */
  predicate TextLess(a: string, b: string) {
    b != "" && (a == "" || a[0] < b[0] || (a[0] == b[0] && TextLess(a[1..], b[1..])))
  }

  lemma {:induction false} TextLessTotal(a: string, b: string)
    ensures TextLess(a, b) || TextLess(b, a) || a == b
    ensures !(TextLess(a, b) && TextLess(b, a))
    ensures !TextLess(a, a)
  {
    if a != "" {
      TextLessTotal(a[1..], if b == "" then "" else b[1..]);
      assert a == [a[0]] + a[1..];
      if b != "" { assert b == [b[0]] + b[1..]; }
    }
  }

  lemma {:induction false} TextLessTransitive(a: string, b: string, c: string)
    requires TextLess(a, b) && TextLess(b, c)
    ensures TextLess(a, c)
  {
    if a != "" && a[0] == b[0] == c[0] {
      TextLessTransitive(a[1..], b[1..], c[1..]);
    }
  }

  lemma {:induction false} TextLessSameHead(head: string, x: string, y: string)
    ensures TextLess(head + x, head + y) <==> TextLess(x, y)
  {
    if head == "" {
      assert head + x == x && head + y == y;
    } else {
      assert (head + x)[1..] == head[1..] + x && (head + y)[1..] == head[1..] + y;
      TextLessSameHead(head[1..], x, y);
    }
  }

  lemma {:induction false} TextLessSameLength(a: string, b: string, x: string, y: string)
    requires |a| == |b| && a != b
    ensures TextLess(a + x, b + y) <==> TextLess(a, b)
  {
    if a[0] == b[0] {
      assert a == [a[0]] + a[1..] && b == [b[0]] + b[1..];
      assert (a + x)[1..] == a[1..] + x && (b + y)[1..] == b[1..] + y;
      TextLessSameLength(a[1..], b[1..], x, y);
    }
  }

  lemma OneDigitOrder(x: nat, y: nat)
    requires x < 10 && y < 10
    ensures TextLess([Digit(x)], [Digit(y)]) <==> x < y
  {
  }

  lemma {:induction false} DigitsOrder(m: nat, n: nat, width: nat)
    requires m < Pow10(width) && n < Pow10(width)
    ensures TextLess(Digits(m, width), Digits(n, width)) <==> m < n
    ensures Digits(m, width) == Digits(n, width) <==> m == n
  {
    if width > 0 {
      DigitsOrder(m / 10, n / 10, width - 1);
      ValueDigits(m, width);
      ValueDigits(n, width);
      var a, b := Digits(m / 10, width - 1), Digits(n / 10, width - 1);
      var x, y := m % 10, n % 10;
      assert Digits(m, width) == a + [Digit(x)] && Digits(n, width) == b + [Digit(y)];
      OneDigitOrder(x, y);
      hide TextLess, Digits, Value;
      if a == b {
        TextLessSameHead(a, [Digit(x)], [Digit(y)]);
      } else {
        TextLessSameLength(a, b, [Digit(x)], [Digit(y)]);
      }
    }
  }

  /** A fixed-width number in front decides, and equal numbers leave it to what follows. */
  lemma NumberFirst(m: nat, n: nat, width: nat, x: string, y: string)
    requires m < Pow10(width) && n < Pow10(width)
    ensures TextLess(Digits(m, width) + x, Digits(n, width) + y) <==> m < n || (m == n && TextLess(x, y))
  {
    DigitsOrder(m, n, width);
    if m == n {
      TextLessSameHead(Digits(m, width), x, y);
    } else {
      TextLessSameLength(Digits(m, width), Digits(n, width), x, y);
    }
  }

  lemma FieldFirst(separator: char, m: nat, n: nat, x: string, y: string)
    requires m < 100 && n < 100
    ensures TextLess([separator] + (Digits(m, 2) + x), [separator] + (Digits(n, 2) + y)) <==>
            m < n || (m == n && TextLess(x, y))
  {
    assert Pow10(2) == 100;
    TextLessSameHead([separator], Digits(m, 2) + x, Digits(n, 2) + y);
    NumberFirst(m, n, 2, x, y);
  }

  /** The fields compare as numbers, and within one second the printed fractions decide. */
  lemma FieldsDecide(a: Civil, b: Civil)
    requires ValidCivil(a) && ValidCivil(b) && a.year <= 9999 && b.year <= 9999
    ensures TextLess(FormatCivil(a), FormatCivil(b)) <==>
            EarlierSecond(a, b) || (SameSecond(a, b) && TextLess(FractionText(a.nanos), FractionText(b.nanos)))
  {
    var a6, b6 := FractionText(a.nanos), FractionText(b.nanos);
    var a5, b5 := ":" + (Digits(a.second, 2) + a6), ":" + (Digits(b.second, 2) + b6);
    var a4, b4 := ":" + (Digits(a.minute, 2) + a5), ":" + (Digits(b.minute, 2) + b5);
    var a3, b3 := "T" + (Digits(a.hour, 2) + a4), "T" + (Digits(b.hour, 2) + b4);
    var a2, b2 := "-" + (Digits(a.day, 2) + a3), "-" + (Digits(b.day, 2) + b3);
    var a1, b1 := "-" + (Digits(a.month, 2) + a2), "-" + (Digits(b.month, 2) + b2);
    assert FormatCivil(a) == Digits(a.year, 4) + a1 && FormatCivil(b) == Digits(b.year, 4) + b1;
    assert Pow10(4) == 10000 by { assert Pow10(2) == 100; }
    NumberFirst(a.year, b.year, 4, a1, b1);
    FieldFirst('-', a.month, b.month, a2, b2);
    FieldFirst('-', a.day, b.day, a3, b3);
    FieldFirst('T', a.hour, b.hour, a4, b4);
    FieldFirst(':', a.minute, b.minute, a5, b5);
    FieldFirst(':', a.second, b.second, a6, b6);
  }

  lemma PrefixSameHead(head: string, x: string, y: string)
    ensures head + x < head + y <==> x < y
  {
    if head + x <= head + y {
      assert forall i :: 0 <= i < |x| ==> x[i] == (head + x)[|head| + i] == (head + y)[|head| + i] == y[i];
    }
  }

  /** The order of two digit strings `d` and `e` once trimmed to `td` and `te` and closed with the zone letter. */
  predicate SortsAs(td: string, te: string, d: string, e: string) {
    && td != te
    && (TextLess(td + "Z", te + "Z") <==> te < td || (!(td < te) && TextLess(d, e)))
  }

  lemma OneIsEmpty(td: string, te: string, d: string, e: string)
    requires AllDigits(td) && AllDigits(te) && (td == "" <==> te != "")
    requires td == "" ==> !TextLess(e, d)
    requires te == "" ==> !TextLess(d, e)
    ensures SortsAs(td, te, d, e)
  {
    assert "" + "Z" == "Z";
    assert (td + "Z")[0] == (if td == "" then 'Z' else td[0]) && (te + "Z")[0] == (if te == "" then 'Z' else te[0]);
  }

  lemma FirstDigitsDiffer(td: string, te: string, d: string, e: string)
    requires td != "" && te != "" && d != "" && e != ""
    requires td[0] == d[0] && te[0] == e[0] && d[0] != e[0]
    ensures SortsAs(td, te, d, e)
  {
    assert (td + "Z")[0] == d[0] && (te + "Z")[0] == e[0];
  }

  lemma FirstDigitShared(c: string, td: string, te: string, d: string, e: string)
    requires SortsAs(td, te, d, e)
    ensures SortsAs(c + td, c + te, c + d, c + e)
  {
    hide TextLess;
    assert c + td + "Z" == c + (td + "Z") && c + te + "Z" == c + (te + "Z");
    TextLessSameHead(c, td + "Z", te + "Z");
    TextLessSameHead(c, d, e);
    PrefixSameHead(c, td, te);
    PrefixSameHead(c, te, td);
    assert (c + td)[|c|..] == td && (c + te)[|c|..] == te;
  }

  lemma TrimZerosHead(s: string)
    requires s != ""
    ensures TrimZeros(s) == if AllZeros(s) then "" else [s[0]] + TrimZeros(s[1..])
    ensures s == [s[0]] + s[1..]
  {
    hide AllZeros;
  }

  lemma {:induction false} ZerosAreLeast(zeros: string, e: string)
    requires |zeros| == |e| && AllZeros(zeros) && AllDigits(e)
    ensures !TextLess(e, zeros)
  {
    if e != "" {
      ZerosAreLeast(zeros[1..], e[1..]);
    }
  }

  /** Digit strings of equal length, trailing zeros dropped and the zone letter added. */
  lemma {:induction false} TrimmedOrder(d: string, e: string)
    requires |d| == |e| && d != e && AllDigits(d) && AllDigits(e)
    ensures SortsAs(TrimZeros(d), TrimZeros(e), d, e)
  {
    TrimZerosRefill(d);
    TrimZerosRefill(e);
    if d == "" || e == "" { return; }
    TrimZerosHead(d);
    TrimZerosHead(e);
    hide TextLess, TrimZeros, SortsAs;
    if AllZeros(d) || AllZeros(e) {
      if AllZeros(d) { ZerosAreLeast(d, e); } else { ZerosAreLeast(e, d); }
      OneIsEmpty(TrimZeros(d), TrimZeros(e), d, e);
    } else if d[0] == e[0] {
      TrimmedOrder(d[1..], e[1..]);
      FirstDigitShared([d[0]], TrimZeros(d[1..]), TrimZeros(e[1..]), d[1..], e[1..]);
    } else {
      FirstDigitsDiffer(TrimZeros(d), TrimZeros(e), d, e);
    }
  }

  lemma FractionsDecide(m: nat, n: nat)
    requires m < SECOND && n < SECOND && m != n
    ensures TextLess(FractionText(m), FractionText(n)) <==>
            Fraction(n) < Fraction(m) || (!(Fraction(m) < Fraction(n)) && m < n)
  {
    Pow10Nine();
    DigitsOrder(m, n, 9);
    TrimmedOrder(Digits(m, 9), Digits(n, 9));
    var f, g := Fraction(m), Fraction(n);
    if f != "" && g != "" {
      assert FractionText(m) == "." + (f + "Z") && FractionText(n) == "." + (g + "Z");
      TextLessSameHead(".", f + "Z", g + "Z");
    }
  }

  /** Two instants of the same second, one printed fraction a proper prefix of the other. */
  predicate Swapped(s: Instant, t: Instant) {
    var a, b := CivilOf(s), CivilOf(t);
    SameSecond(a, b) && (Fraction(a.nanos) < Fraction(b.nanos) || Fraction(b.nanos) < Fraction(a.nanos))
  }

  lemma {:induction false} TrimZerosMonotone(d: string, e: string)
    requires |d| == |e| && AllDigits(d) && AllDigits(e) && TrimZeros(d) < TrimZeros(e)
    ensures TextLess(d, e)
  {
    if AllZeros(d) {
      SomeDigitAboveZeros(d, e);
    } else {
      assert TrimZeros(d)[0] == d[0] == TrimZeros(e)[0] == e[0];
      assert TrimZeros(d)[1..] == TrimZeros(d[1..]) && TrimZeros(e)[1..] == TrimZeros(e[1..]);
      assert d[1..] == d[1..] && TrimZeros(d[1..]) < TrimZeros(e[1..]);
      TrimZerosMonotone(d[1..], e[1..]);
    }
  }

  lemma {:induction false} SomeDigitAboveZeros(d: string, e: string)
    requires |d| == |e| && AllZeros(d) && AllDigits(e) && !AllZeros(e)
    ensures TextLess(d, e)
  {
    if e[0] == '0' {
      assert e == [e[0]] + e[1..];
      SomeDigitAboveZeros(d[1..], e[1..]);
    }
  }

  /**
    * The order of the stored text is the order in time, except for two stamps of one second in which
    * one fraction is a proper prefix of the other: those are always the wrong way round.
    */
  lemma {:induction false} TextOrderVersusTime(s: Instant, t: Instant)
    requires InCalendar(s) && InCalendar(t)
    ensures TextLess(Format(s), Format(t)) <==> if Swapped(s, t) then t < s else s < t
  {
    var a, b := CivilOf(s), CivilOf(t);
    Chronology(a, b);
    Chronology(b, a);
    FieldsDecide(a, b);
    if s == t {
      TextLessTotal(Format(s), Format(t));
    } else if SameSecond(a, b) {
      assert a.nanos == b.nanos ==> a == b;
      FractionsDecide(a.nanos, b.nanos);
      FractionsInTime(a.nanos, b.nanos);
      FractionsInTime(b.nanos, a.nanos);
    }
  }

  lemma FractionsInTime(m: nat, n: nat)
    requires m < SECOND && n < SECOND
    ensures Fraction(m) < Fraction(n) ==> m < n
  {
    if Fraction(m) < Fraction(n) {
      Pow10Nine();
      TrimZerosMonotone(Digits(m, 9), Digits(n, 9));
      DigitsOrder(m, n, 9);
    }
  }

  lemma FirstSecond(nanos: nat)
    requires nanos < SECOND
    ensures CivilOf(nanos) == Civil(0, 1, 1, 0, 0, 0, nanos)
  {
    var c := Civil(0, 1, 1, 0, 0, 0, nanos);
    assert DaysBeforeYear(0) == 0 && DaysBeforeMonth(0, 1) == 0;
    assert InstantOf(c) == nanos;
    Chronology(c, CivilOf(nanos));
    Chronology(CivilOf(nanos), c);
  }

  lemma OneZeroMore(n: nat, zeros: nat)
    requires zeros > 0
    ensures n * Pow10(zeros) == n * Pow10(zeros - 1) * 10
  {
    var p := Pow10(zeros - 1);
    assert Pow10(zeros) == 10 * p;
    hide Pow10;
    assert n * (10 * p) == n * p * 10;
  }

  lemma ZeroDigit(m: nat, width: nat)
    requires width > 0
    ensures Digits(m * 10, width) == Digits(m, width - 1) + ['0']
  {
    assert m * 10 / 10 == m && m * 10 % 10 == 0;
  }

  /** Zeros behind a number print as zeros and are dropped again. */
  lemma {:induction false} ZerosBehind(n: nat, width: nat, zeros: nat)
    ensures Digits(n * Pow10(zeros), width + zeros) == Digits(n, width) + seq(zeros, _ => '0')
  {
    if zeros > 0 {
      var m := n * Pow10(zeros - 1);
      OneZeroMore(n, zeros);
      ZeroDigit(m, width + zeros);
      hide Digits, Pow10;
      ZerosBehind(n, width, zeros - 1);
      var front := seq(zeros - 1, _ => '0');
      assert front + ['0'] == seq(zeros, _ => '0');
      assert Digits(n, width) + front + ['0'] == Digits(n, width) + (front + ['0']);
    } else {
      assert n * Pow10(0) == n;
      assert seq(0, _ => '0') == "" && Digits(n, width) + "" == Digits(n, width);
    }
  }

  lemma {:induction false} TrimZerosOf(head: string, zeros: nat)
    requires head != "" && head[|head| - 1] != '0'
    ensures TrimZeros(head + seq(zeros, _ => '0')) == head
  {
    var s := head + seq(zeros, _ => '0');
    assert s[|head| - 1] != '0';
    if |head| == 1 {
      assert AllZeros(s[1..]);
    } else {
      assert s[1..] == head[1..] + seq(zeros, _ => '0');
      TrimZerosOf(head[1..], zeros);
    }
  }

  /** Such pairs exist: a tenth of a second sorts after fifteen hundredths. */
  lemma {:induction false} SwappedPair()
    ensures Swapped(100_000_000, 150_000_000)
    ensures TextLess(Format(150_000_000), Format(100_000_000))
  {
    FirstSecond(100_000_000);
    FirstSecond(150_000_000);
    assert Pow10(7) == 10_000_000 by { assert Pow10(4) == 10000; }
    assert Pow10(8) == 100_000_000;
    ZerosBehind(1, 1, 8);
    ZerosBehind(15, 2, 7);
    assert Digits(1, 1) == "1" && Digits(15, 2) == "15";
    TrimZerosOf("1", 8);
    TrimZerosOf("15", 7);
    TextOrderVersusTime(150_000_000, 100_000_000);
  }

  /** Distinct instants never share a text, so ties in the sort key are ties in time. */
  lemma {:induction false} FormatInjective(s: Instant, t: Instant)
    requires InCalendar(s) && InCalendar(t)
    ensures Format(s) == Format(t) <==> s == t
  {
    StampRoundTrip(s);
    StampRoundTrip(t);
  }

  // ---------- ordering rows ----------

  /** `ORDER BY queued_at ASC, id ASC`: whether the first row comes before the second. */
  predicate RowBefore(stampA: string, idA: nat, stampB: string, idB: nat) {
    TextLess(stampA, stampB) || (stampA == stampB && idA < idB)
  }

  /** Without a swapped pair the row order is the order by time and then by id; with one it is not. */
  lemma {:induction false} RowOrderVersusTime(s: Instant, idA: nat, t: Instant, idB: nat)
    requires InCalendar(s) && InCalendar(t)
    ensures (RowBefore(Format(s), idA, Format(t), idB) <==> s < t || (s == t && idA < idB)) <==> !Swapped(s, t)
  {
    TextOrderVersusTime(s, t);
    TextOrderVersusTime(t, s);
    FormatInjective(s, t);
    TextLessTotal(Format(s), Format(t));
  }

  /** By time, ties by id. */
  predicate TimeBefore(s: Instant, idA: nat, t: Instant, idB: nat) {
    s < t || (s == t && idA < idB)
  }

  /** The text is the stamp of an instant with a four-digit year. */
  predicate Stamped(text: string) {
    InCalendar(ParseStored(text)) && Format(ParseStored(text)) == text
  }

  lemma StampIsStamped(t: Instant)
    requires InCalendar(t)
    ensures Stamped(Format(t)) && ParseStored(Format(t)) == t
  {
    StampRoundTrip(t);
    hide Format, ParseStored, InCalendar;
  }

  /** The order of stamped rows, told from their texts alone. */
  lemma StampedOrder(x: string, idA: nat, y: string, idB: nat)
    requires Stamped(x) && Stamped(y)
    ensures (RowBefore(x, idA, y, idB) <==> TimeBefore(ParseStored(x), idA, ParseStored(y), idB))
            <==> !Swapped(ParseStored(x), ParseStored(y))
  {
    RowOrderVersusTime(ParseStored(x), idA, ParseStored(y), idB);
    hide Format, ParseStored, InCalendar, Swapped, RowBefore;
  }

  lemma NeverSwappedWithItself(t: Instant)
    ensures !Swapped(t, t)
  {
  }
}
