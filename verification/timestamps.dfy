/**
 * The fixed timestamp format of swath file names: `%Y%m%d%H%M%S` read by
 * `datetime.strptime` and written back by `strftime`, and the ISO 8601 form
 * `%Y-%m-%dT%H:%M:%S` used in the map layer's time metadata.
 */
module Timestamps {
  import opened Wrappers

  predicate IsDigit(c: char) { '0' <= c <= '9' }

  predicate AllDigits(s: string) { forall i :: 0 <= i < |s| ==> IsDigit(s[i]) }

  /** What `\d{14}` matches (ASCII digits only). */
  predicate IsTimestamp14(s: string) { |s| == 14 && AllDigits(s) }

  function Pow10(n: nat): (r: nat)
    ensures r >= 1
  {
    if n == 0 then 1 else 10 * Pow10(n - 1)
  }

  function DigitValue(c: char): (d: nat)
    requires IsDigit(c)
    ensures d < 10
  {
    (c as int - '0' as int) as nat
  }

  function DigitChar(d: nat): (c: char)
    requires d < 10
    ensures IsDigit(c) && DigitValue(c) == d
  {
    ('0' as int + d) as char
  }

  /** The decimal value of a string of digits, as `int()` reads it. */
  function DigitsValue(s: string): (v: nat)
    requires AllDigits(s)
    ensures v < Pow10(|s|)
  {
    if s == [] then 0 else DigitsValue(s[..|s| - 1]) * 10 + DigitValue(s[|s| - 1])
  }

  /** `n` written in decimal with exactly `width` digits, zero-padded on the left. */
  function Pad(n: nat, width: nat): (s: string)
    ensures |s| == width && AllDigits(s)
  {
    if width == 0 then [] else Pad(n / 10, width - 1) + [DigitChar(n % 10)]
  }

  lemma {:induction false} PadDigitsValue(s: string)
    requires AllDigits(s)
    ensures Pad(DigitsValue(s), |s|) == s
  {
    if s != [] {
      var init, last := s[..|s| - 1], s[|s| - 1];
      var v := DigitsValue(init) * 10 + DigitValue(last);
      assert v / 10 == DigitsValue(init) && v % 10 == DigitValue(last);
      PadDigitsValue(init);
      assert s == init + [last];
    }
  }

  lemma {:induction false} DigitsValuePad(n: nat, width: nat)
    requires n < Pow10(width)
    ensures DigitsValue(Pad(n, width)) == n
  {
    if width > 0 {
      var s := Pad(n, width);
      assert s[..|s| - 1] == Pad(n / 10, width - 1);
      DigitsValuePad(n / 10, width - 1);
    }
  }

  /** A calendar date-time as `datetime` holds it (no fractional seconds, no zone). */
  datatype DateTime = DateTime(year: nat, month: nat, day: nat, hour: nat, minute: nat, second: nat)

  predicate IsLeapYear(y: nat) { y % 4 == 0 && (y % 100 != 0 || y % 400 == 0) }

  function DaysInMonth(year: nat, month: nat): nat
  {
    if month == 2 then (if IsLeapYear(year) then 29 else 28)
    else if month == 4 || month == 6 || month == 9 || month == 11 then 30
    else 31
  }

  /** The values `datetime` accepts, restricted to four-digit years. */
  predicate ValidDateTime(t: DateTime)
  {
    1 <= t.year < 10000 && 1 <= t.month <= 12 && 1 <= t.day <= DaysInMonth(t.year, t.month)
    && t.hour < 24 && t.minute < 60 && t.second < 60
  }

  /** The six fields of a 14-digit stamp, each read at its fixed position. */
  function Fields(s: string): DateTime
    requires IsTimestamp14(s)
  {
    DateTime(DigitsValue(s[0..4]), DigitsValue(s[4..6]), DigitsValue(s[6..8]),
             DigitsValue(s[8..10]), DigitsValue(s[10..12]), DigitsValue(s[12..14]))
  }

  /** `f'{t:%Y%m%d%H%M%S}'`, with the year padded to four digits. */
  function FormatCompact(t: DateTime): string
  {
    Pad(t.year, 4) + Pad(t.month, 2) + Pad(t.day, 2) + Pad(t.hour, 2) + Pad(t.minute, 2) + Pad(t.second, 2)
  }

  /** `f'{t:%Y-%m-%dT%H:%M:%S}Z'`: ISO 8601 in UTC, as the layer's time metadata writes it. */
  function FormatIso(t: DateTime): string
  {
    Pad(t.year, 4) + "-" + Pad(t.month, 2) + "-" + Pad(t.day, 2) + "T"
    + Pad(t.hour, 2) + ":" + Pad(t.minute, 2) + ":" + Pad(t.second, 2) + "Z"
  }

  /** A 14-character stamp is the concatenation of its six fields. */
  lemma SixFields(s: string)
    requires |s| == 14
    ensures s == s[0..4] + s[4..6] + s[6..8] + s[8..10] + s[10..12] + s[12..14]
  {
    assert s[0..6] == s[0..4] + s[4..6];
    assert s[0..8] == s[0..6] + s[6..8];
    assert s[0..10] == s[0..8] + s[8..10];
    assert s[0..12] == s[0..10] + s[10..12];
    assert s == s[0..12] + s[12..14];
  }

  /** Writing back the fields read from a stamp gives the stamp. */
  lemma FieldsFormatCompact(s: string)
    requires IsTimestamp14(s)
    ensures FormatCompact(Fields(s)) == s
  {
    var t := Fields(s);
    assert Pad(t.year, 4) == s[0..4] by { PadDigitsValue(s[0..4]); }
    assert Pad(t.month, 2) == s[4..6] by { PadDigitsValue(s[4..6]); }
    assert Pad(t.day, 2) == s[6..8] by { PadDigitsValue(s[6..8]); }
    assert Pad(t.hour, 2) == s[8..10] by { PadDigitsValue(s[8..10]); }
    assert Pad(t.minute, 2) == s[10..12] by { PadDigitsValue(s[10..12]); }
    assert Pad(t.second, 2) == s[12..14] by { PadDigitsValue(s[12..14]); }
    SixFields(s);
  }

  /** A date-time with a four-digit year is written as 14 digits whose fields read back as itself. */
  lemma FormatCompactFields(t: DateTime)
    requires t.year < 10000 && t.month < 100 && t.day < 100 && t.hour < 100 && t.minute < 100 && t.second < 100
    ensures IsTimestamp14(FormatCompact(t)) && Fields(FormatCompact(t)) == t
  {
    var s := FormatCompact(t);
    assert AllDigits(s) by {
      forall i | 0 <= i < |s| ensures IsDigit(s[i]) {
        if i < 4 { assert s[i] == Pad(t.year, 4)[i]; }
        else if i < 6 { assert s[i] == Pad(t.month, 2)[i - 4]; }
        else if i < 8 { assert s[i] == Pad(t.day, 2)[i - 6]; }
        else if i < 10 { assert s[i] == Pad(t.hour, 2)[i - 8]; }
        else if i < 12 { assert s[i] == Pad(t.minute, 2)[i - 10]; }
        else { assert s[i] == Pad(t.second, 2)[i - 12]; }
      }
    }
    assert s[0..4] == Pad(t.year, 4);
    assert s[4..6] == Pad(t.month, 2);
    assert s[6..8] == Pad(t.day, 2);
    assert s[8..10] == Pad(t.hour, 2);
    assert s[10..12] == Pad(t.minute, 2);
    assert s[12..14] == Pad(t.second, 2);
    DigitsValuePad(t.year, 4);
    DigitsValuePad(t.month, 2);
    DigitsValuePad(t.day, 2);
    DigitsValuePad(t.hour, 2);
    DigitsValuePad(t.minute, 2);
    DigitsValuePad(t.second, 2);
  }

  /**
   * `datetime.strptime(s, "%Y%m%d%H%M%S")` on fourteen digits: the fields can
   * only split 4+2+2+2+2+2, and the call fails (`ValueError`, here `None`)
   * exactly when those fields do not form a valid date-time (month 00, day 31
   * in April, February 29 outside a leap year, hour 24, second 60, year 0000).
   * Stated against the formatter: a result is a valid date-time written as
   * `s`, and there is no result only when no valid date-time is written as `s`.
   */
  function Strptime(s: string): (r: Option<DateTime>)
    requires IsTimestamp14(s)
    ensures r.Some? ==> ValidDateTime(r.value) && FormatCompact(r.value) == s
    ensures r.None? ==> forall t :: ValidDateTime(t) ==> FormatCompact(t) != s
  {
    var t := Fields(s);
    FieldsFormatCompact(s);
    assert forall u :: ValidDateTime(u) && FormatCompact(u) == s ==> u == t by {
      forall u | ValidDateTime(u) && FormatCompact(u) == s ensures u == t {
        FormatCompactFields(u);
      }
    }
    if ValidDateTime(t) then Some(t) else None
  }

  /** Reading a stamp and writing it back with the same format gives the stamp itself. */
  lemma FormatCompactStrptime(s: string)
    requires IsTimestamp14(s) && Strptime(s).Some?
    ensures FormatCompact(Strptime(s).value) == s
  {
    FieldsFormatCompact(s);
  }

  /** Every valid date-time is written as a stamp that reads back as itself. */
  lemma StrptimeFormatCompact(t: DateTime)
    requires ValidDateTime(t)
    ensures IsTimestamp14(FormatCompact(t))
    ensures Strptime(FormatCompact(t)) == Some(t)
  {
    FormatCompactFields(t);
  }

  /** The ISO form of a parsed stamp is the stamp's own digits with the separators put in. */
  lemma FormatIsoStrptime(s: string)
    requires IsTimestamp14(s) && Strptime(s).Some?
    ensures FormatIso(Strptime(s).value)
         == s[0..4] + "-" + s[4..6] + "-" + s[6..8] + "T" + s[8..10] + ":" + s[10..12] + ":" + s[12..14] + "Z"
  {
    PadDigitsValue(s[0..4]);
    PadDigitsValue(s[4..6]);
    PadDigitsValue(s[6..8]);
    PadDigitsValue(s[8..10]);
    PadDigitsValue(s[10..12]);
    PadDigitsValue(s[12..14]);
  }
}
