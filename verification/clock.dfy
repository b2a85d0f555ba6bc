/**
 * Clock readings and the three `strftime` layouts the bots write:
 * `%Y-%m-%d` and `%H:%M` in the record table of app.py, and
 * `%d/%m/%Y %H:%M` in the photo captions of main.py. The reading itself is a
 * parameter here; each layout is paired with a parser that undoes it.
 */
module Clock {
  import opened Wrappers
  import opened Text

  /** A local date and time to the minute. */
  datatype DateTime = DateTime(year: int, month: int, day: int, hour: int, minute: int)

  predicate IsLeapYear(y: int) {
    y % 4 == 0 && (y % 100 != 0 || y % 400 == 0)
  }

  function DaysInMonth(y: int, m: int): int
    requires 1 <= m <= 12
  {
    if m == 2 then (if IsLeapYear(y) then 29 else 28)
    else if m == 4 || m == 6 || m == 9 || m == 11 then 30
    else 31
  }

  /** A reading of the clock with a four-digit year. */
  predicate Valid(t: DateTime) {
    && 1000 <= t.year <= 9999
    && 1 <= t.month <= 12
    && 1 <= t.day <= DaysInMonth(t.year, t.month)
    && 0 <= t.hour < 24
    && 0 <= t.minute < 60
  }

  /** Each zero-padded field of a valid reading has its layout's width. */
  lemma {:induction false} FieldWidths(t: DateTime)
    requires Valid(t)
    ensures |ZeroPad(t.year, 4)| == 4 && |ZeroPad(t.month, 2)| == 2 && |ZeroPad(t.day, 2)| == 2
    ensures |ZeroPad(t.hour, 2)| == 2 && |ZeroPad(t.minute, 2)| == 2
  {
    FieldValues(t);
  }

  /** Each zero-padded field of a valid reading has its layout's width and reads back as the field. */
  lemma {:induction false} FieldValues(t: DateTime)
    requires Valid(t)
    ensures |ZeroPad(t.year, 4)| == 4 && ValueOf(ZeroPad(t.year, 4)) == t.year
    ensures |ZeroPad(t.month, 2)| == 2 && ValueOf(ZeroPad(t.month, 2)) == t.month
    ensures |ZeroPad(t.day, 2)| == 2 && ValueOf(ZeroPad(t.day, 2)) == t.day
    ensures |ZeroPad(t.hour, 2)| == 2 && ValueOf(ZeroPad(t.hour, 2)) == t.hour
    ensures |ZeroPad(t.minute, 2)| == 2 && ValueOf(ZeroPad(t.minute, 2)) == t.minute
  {
    assert Pow10(2) == 100 && Pow10(4) == 10000;
    ZeroPadRoundTrip(t.year, 4);
    ZeroPadRoundTrip(t.month, 2);
    ZeroPadRoundTrip(t.day, 2);
    ZeroPadRoundTrip(t.hour, 2);
    ZeroPadRoundTrip(t.minute, 2);
  }

  /** `strftime("%Y-%m-%d")`. */
  function IsoDate(t: DateTime): (s: string)
    requires Valid(t)
    ensures |s| == 10 && s[4] == '-' && s[7] == '-'
  {
    FieldWidths(t);
    ZeroPad(t.year, 4) + "-" + ZeroPad(t.month, 2) + "-" + ZeroPad(t.day, 2)
  }

  /** `strftime("%H:%M")`. */
  function ClockTime(t: DateTime): (s: string)
    requires Valid(t)
    ensures |s| == 5 && s[2] == ':'
  {
    FieldWidths(t);
    ZeroPad(t.hour, 2) + ":" + ZeroPad(t.minute, 2)
  }

  /** `strftime("%d/%m/%Y %H:%M")`. */
  function Stamp(t: DateTime): (s: string)
    requires Valid(t)
    ensures |s| == 16 && s[2] == '/' && s[5] == '/' && s[10] == ' ' && s[13] == ':'
  {
    FieldWidths(t);
    ZeroPad(t.day, 2) + "/" + ZeroPad(t.month, 2) + "/" + ZeroPad(t.year, 4) + " " + ClockTime(t)
  }

  /** Reads a `YYYY-MM-DD` string back into year, month and day. */
  function ParseIsoDate(s: string): Option<(int, int, int)> {
    if |s| == 10 && s[4] == '-' && s[7] == '-' && AllDigits(s[..4]) && AllDigits(s[5..7]) && AllDigits(s[8..])
    then Some((ValueOf(s[..4]), ValueOf(s[5..7]), ValueOf(s[8..])))
    else None
  }

  /** Reads an `HH:MM` string back into hour and minute. */
  function ParseClockTime(s: string): Option<(int, int)> {
    if |s| == 5 && s[2] == ':' && AllDigits(s[..2]) && AllDigits(s[3..])
    then Some((ValueOf(s[..2]), ValueOf(s[3..])))
    else None
  }

  /** Reads a `DD/MM/YYYY HH:MM` string back into a clock reading. */
  function ParseStamp(s: string): Option<DateTime> {
    if |s| == 16 && s[2] == '/' && s[5] == '/' && s[10] == ' '
       && AllDigits(s[..2]) && AllDigits(s[3..5]) && AllDigits(s[6..10])
       && ParseClockTime(s[11..]).Some?
    then
      var hm := ParseClockTime(s[11..]).value;
      Some(DateTime(ValueOf(s[6..10]), ValueOf(s[3..5]), ValueOf(s[..2]), hm.0, hm.1))
    else None
  }

  /** The stored date reads back as the day it was written on. */
  lemma {:induction false} IsoDateRoundTrip(t: DateTime)
    requires Valid(t)
    ensures ParseIsoDate(IsoDate(t)) == Some((t.year, t.month, t.day))
  {
    FieldValues(t);
    var s := IsoDate(t);
    assert s[..4] == ZeroPad(t.year, 4) && s[5..7] == ZeroPad(t.month, 2) && s[8..] == ZeroPad(t.day, 2) by {
      FieldWidths(t);
    }
  }

  /** The stored time reads back as the hour and minute it was written at. */
  lemma {:induction false} ClockTimeRoundTrip(t: DateTime)
    requires Valid(t)
    ensures ParseClockTime(ClockTime(t)) == Some((t.hour, t.minute))
  {
    FieldValues(t);
    var s := ClockTime(t);
    assert s[..2] == ZeroPad(t.hour, 2) && s[3..] == ZeroPad(t.minute, 2) by {
      FieldWidths(t);
    }
  }

  /** A caption's time stamp reads back as the full clock reading. */
  lemma {:induction false} StampRoundTrip(t: DateTime)
    requires Valid(t)
    ensures ParseStamp(Stamp(t)) == Some(t)
  {
    FieldValues(t);
    var s := Stamp(t);
    assert s[..2] == ZeroPad(t.day, 2) && s[3..5] == ZeroPad(t.month, 2)
      && s[6..10] == ZeroPad(t.year, 4) && s[11..] == ClockTime(t) by {
      FieldWidths(t);
    }
    ClockTimeRoundTrip(t);
  }

  /** Two readings are stored under the same date string exactly when they fall on the same day. */
  lemma {:induction false} IsoDateIdentifiesDay(t1: DateTime, t2: DateTime)
    requires Valid(t1) && Valid(t2)
    ensures IsoDate(t1) == IsoDate(t2) <==> (t1.year, t1.month, t1.day) == (t2.year, t2.month, t2.day)
  {
    IsoDateRoundTrip(t1);
    IsoDateRoundTrip(t2);
  }
}
