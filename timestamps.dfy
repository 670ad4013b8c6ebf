/** The timestamps of log rows: the `%Y-%m-%d %H:%M:%S.%f` layout, as the
    Logger writes it (microseconds cut to milliseconds) and as the analyzer's
    `strptime` reads it back. */
module Timestamps {
  import opened Text

  predicate DigitsIn(t: string, lo: nat, hi: nat)
    requires lo <= hi <= |t|
  {
    forall k :: lo <= k < hi ==> IsDigit(t[k])
  }

  /** The number written in `t[lo..hi]`. */
  function FieldValue(t: string, lo: nat, hi: nat): nat
    requires lo <= hi <= |t| && DigitsIn(t, lo, hi)
  {
    DigitsValue(t[lo..hi])
  }

  predicate IsLeapYear(year: int)
  {
    year % 4 == 0 && (year % 100 != 0 || year % 400 == 0)
  }

  function DaysInMonth(year: int, month: int): nat
    requires 1 <= month <= 12
  {
    if month == 2 then (if IsLeapYear(year) then 29 else 28)
    else if month == 4 || month == 6 || month == 9 || month == 11 then 30
    else 31
  }

  /** `YYYY-MM-DD HH:MM:SS.` with every field inside the range a `datetime`
      allows for it. */
  predicate DateTimePrefix(t: string)
  {
    && |t| >= 20
    && DigitsIn(t, 0, 4) && t[4] == '-' && DigitsIn(t, 5, 7) && t[7] == '-' && DigitsIn(t, 8, 10)
    && t[10] == ' '
    && DigitsIn(t, 11, 13) && t[13] == ':' && DigitsIn(t, 14, 16) && t[16] == ':' && DigitsIn(t, 17, 19)
    && t[19] == '.'
    && var year := FieldValue(t, 0, 4);
       var month := FieldValue(t, 5, 7);
       && 1 <= year && 1 <= month <= 12
       && 1 <= FieldValue(t, 8, 10) <= DaysInMonth(year, month)
       && FieldValue(t, 11, 13) <= 23 && FieldValue(t, 14, 16) <= 59 && FieldValue(t, 17, 19) <= 59
  }

  /** A timestamp as the Logger writes it: three fraction digits. */
  predicate IsStamp(t: string)
  {
    DateTimePrefix(t) && |t| == 23 && DigitsIn(t, 20, 23)
  }

  /** The zero-padded timestamps `strptime` accepts with the analyzer's format:
      one to six fraction digits. */
  predicate StrptimeAccepts(t: string)
  {
    DateTimePrefix(t) && 21 <= |t| <= 26 && DigitsIn(t, 20, |t|)
  }

  function Pow10(w: nat): (r: nat)
    ensures r >= 1
  {
    if w == 0 then 1 else 10 * Pow10(w - 1)
  }

  /** `n` in `w` decimal digits with leading zeros, as `%04d`-style fields are
      written. */
  function Pad(n: nat, w: nat): (r: string)
    ensures |r| == w && AllDigits(r)
  {
    if w == 0 then [] else Pad(n / 10, w - 1) + [DigitChar(n % 10)]
  }

  /** A padded field reads back as its value when it fits its width. */
  lemma {:induction false} PadValue(n: nat, w: nat)
    requires n < Pow10(w)
    ensures DigitsValue(Pad(n, w)) == n
  {
    if w > 0 {
      var p := Pad(n, w);
      assert p[..w - 1] == Pad(n / 10, w - 1);
      assert p[w - 1] == DigitChar(n % 10);
      assert n / 10 < Pow10(w - 1);
      PadValue(n / 10, w - 1);
    }
  }

  /** `strftime("%Y-%m-%d %H:%M:%S.%f")[:-3]`: the date and time of day, then
      the milliseconds. */
  function Format(year: nat, month: nat, day: nat, hour: nat, minute: nat, second: nat, millis: nat): string
  {
    Pad(year, 4) + "-" + Pad(month, 2) + "-" + Pad(day, 2) + " "
      + Pad(hour, 2) + ":" + Pad(minute, 2) + ":" + Pad(second, 2) + "." + Pad(millis, 3)
  }

  /** Every valid date and time formats to a Logger timestamp, which the
      analyzer accepts and reads back field by field. */
  lemma FormatIsStamp(year: nat, month: nat, day: nat, hour: nat, minute: nat, second: nat, millis: nat)
    requires 1 <= year <= 9999 && 1 <= month <= 12 && 1 <= day <= DaysInMonth(year, month)
    requires hour <= 23 && minute <= 59 && second <= 59 && millis <= 999
    ensures var t := Format(year, month, day, hour, minute, second, millis);
      && IsStamp(t) && StrptimeAccepts(t)
      && FieldValue(t, 0, 4) == year && FieldValue(t, 5, 7) == month && FieldValue(t, 8, 10) == day
      && FieldValue(t, 11, 13) == hour && FieldValue(t, 14, 16) == minute && FieldValue(t, 17, 19) == second
      && FieldValue(t, 20, 23) == millis
  {
    var t := Format(year, month, day, hour, minute, second, millis);
    assert t[0..4] == Pad(year, 4);
    assert t[5..7] == Pad(month, 2);
    assert t[8..10] == Pad(day, 2);
    assert t[11..13] == Pad(hour, 2);
    assert t[14..16] == Pad(minute, 2);
    assert t[17..19] == Pad(second, 2);
    assert t[20..23] == Pad(millis, 3);
    PadValue(year, 4);
    PadValue(month, 2);
    PadValue(day, 2);
    PadValue(hour, 2);
    PadValue(minute, 2);
    PadValue(second, 2);
    PadValue(millis, 3);
  }

  /** A Logger timestamp survives the row format: the analyzer accepts it, it
      has no comma, and it neither starts nor ends with whitespace. */
  lemma StampChars(t: string)
    requires IsStamp(t)
    ensures StrptimeAccepts(t)
    ensures ',' !in t && t != [] && !IsSpace(t[0]) && !IsSpace(t[|t| - 1])
  {
    forall k | 0 <= k < |t|
      ensures t[k] != ','
    {
      if k < 4 || 5 <= k < 7 || 8 <= k < 10 || 11 <= k < 13 || 14 <= k < 16 || 17 <= k < 19 || 20 <= k {
        assert IsDigit(t[k]);
      }
    }
    assert IsDigit(t[0]) && IsDigit(t[22]);
  }
}
