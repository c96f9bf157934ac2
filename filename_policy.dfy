/** How a recording's file name is built from the dialled number and the wall
    clock: `<number or "unknown">_<yyMMdd_HHmmssSSS>.amr`.

    The clock is not read here: the caller passes the calendar fields of the
    current local time, which the pattern `yyMMdd_HHmmssSSS` renders with each
    field zero-padded to its width and the year truncated to two digits. */
module FilenamePolicy {
  import opened Wrappers

  /** The calendar fields of one instant, as a date formatter sees them. */
  datatype DateFields = DateFields(
    year: nat, month: nat, day: nat,
    hour: nat, minute: nat, second: nat, millis: nat)

  /** Fields that a real clock reading can have. */
  predicate ValidDate(d: DateFields) {
    1 <= d.month <= 12 && 1 <= d.day <= 31 &&
    d.hour < 24 && d.minute < 60 && d.second < 60 && d.millis < 1000
  }

  /** The date as the two-digit year pattern leaves it: only `year % 100` survives. */
  function Truncated(d: DateFields): DateFields {
    d.(year := d.year % 100)
  }

  const Extension: string := ".amr"
  const UnknownNumber: string := "unknown"

  predicate IsDigit(c: char) { '0' <= c <= '9' }

  predicate AllDigits(s: string) { forall i :: 0 <= i < |s| ==> IsDigit(s[i]) }

  function Pow10(w: nat): (r: nat)
    ensures r >= 1
  {
    if w == 0 then 1 else 10 * Pow10(w - 1)
  }

  function DigitChar(d: nat): (c: char)
    requires d < 10
    ensures IsDigit(c) && c as int - '0' as int == d
  {
    ('0' as int + d) as char
  }

  /** The last `w` decimal digits of `n`, most significant first, zero-padded. */
  function Digits(n: nat, w: nat): (r: string)
    ensures |r| == w && AllDigits(r)
  {
    if w == 0 then [] else Digits(n / 10, w - 1) + [DigitChar(n % 10)]
  }

  /** The number a string of decimal digits denotes. */
  function DigitsValue(s: string): nat
    requires AllDigits(s)
  {
    if s == [] then 0 else 10 * DigitsValue(s[..|s| - 1]) + (s[|s| - 1] as int - '0' as int)
  }

  /** Reading back a padded rendering gives the number, when it fits the width. */
  lemma {:induction false} DigitsRoundTrip(n: nat, w: nat)
    requires n < Pow10(w)
    ensures DigitsValue(Digits(n, w)) == n
  {
    if w > 0 {
      assert n / 10 < Pow10(w - 1);
      DigitsRoundTrip(n / 10, w - 1);
      var s := Digits(n, w);
      assert s[..|s| - 1] == Digits(n / 10, w - 1);
    }
  }

  /** The `yyMMdd_HHmmssSSS` rendering of a date. */
  function Timestamp(d: DateFields): (r: string)
    requires ValidDate(d)
    ensures |r| == 16 && r[6] == '_'
    ensures AllDigits(r[..6]) && AllDigits(r[7..])
  {
    var r := Digits(d.year % 100, 2) + Digits(d.month, 2) + Digits(d.day, 2) + "_" +
             Digits(d.hour, 2) + Digits(d.minute, 2) + Digits(d.second, 2) + Digits(d.millis, 3);
    assert r[..6] == Digits(d.year % 100, 2) + Digits(d.month, 2) + Digits(d.day, 2);
    assert r[7..] == Digits(d.hour, 2) + Digits(d.minute, 2) + Digits(d.second, 2) + Digits(d.millis, 3);
    r
  }

  /** Reads a `yyMMdd_HHmmssSSS` string back into date fields. */
  function ParseTimestamp(s: string): Option<DateFields> {
    if |s| == 16 && s[6] == '_' && AllDigits(s[..6]) && AllDigits(s[7..]) then
      assert AllDigits(s[0..2]) && AllDigits(s[2..4]) && AllDigits(s[4..6]);
      assert AllDigits(s[7..9]) && AllDigits(s[9..11]) && AllDigits(s[11..13]) && AllDigits(s[13..16]);
      Some(DateFields(
        DigitsValue(s[0..2]), DigitsValue(s[2..4]), DigitsValue(s[4..6]),
        DigitsValue(s[7..9]), DigitsValue(s[9..11]), DigitsValue(s[11..13]),
        DigitsValue(s[13..16])))
    else
      None
  }

  /** The timestamp determines every date field the pattern shows. */
  lemma TimestampRoundTrip(d: DateFields)
    requires ValidDate(d)
    ensures ParseTimestamp(Timestamp(d)) == Some(Truncated(d))
  {
    var yy, mo, dd := Digits(d.year % 100, 2), Digits(d.month, 2), Digits(d.day, 2);
    var hh, mi, ss, ms := Digits(d.hour, 2), Digits(d.minute, 2), Digits(d.second, 2), Digits(d.millis, 3);
    var t := Timestamp(d);
    assert t == yy + mo + dd + "_" + hh + mi + ss + ms;
    assert t[0..2] == yy && t[2..4] == mo && t[4..6] == dd;
    assert t[7..9] == hh && t[9..11] == mi && t[11..13] == ss && t[13..16] == ms;
    assert Pow10(2) == 100 && Pow10(3) == 1000;
    DigitsRoundTrip(d.year % 100, 2);
    DigitsRoundTrip(d.month, 2);
    DigitsRoundTrip(d.day, 2);
    DigitsRoundTrip(d.hour, 2);
    DigitsRoundTrip(d.minute, 2);
    DigitsRoundTrip(d.second, 2);
    DigitsRoundTrip(d.millis, 3);
  }

  /** The name part of the file: the number, or "unknown" when it is null or empty. */
  function NumberOrUnknown(number: Option<string>): (r: string)
    ensures r != []
    ensures r == UnknownNumber <==> number.None? || number.value == [] || number.value == UnknownNumber
    ensures number.Some? && number.value != [] ==> r == number.value
  {
    if number.None? || number.value == [] then UnknownNumber else number.value
  }

  /** The file name for a recording of `number` started at `now`. */
  function GenerateFilename(number: Option<string>, now: DateFields): (r: string)
    requires ValidDate(now)
    ensures var prefix := NumberOrUnknown(number);
      |r| == |prefix| + 21 && r[..|prefix|] == prefix && r[|prefix|] == '_' &&
      r[|prefix| + 1..|r| - 4] == Timestamp(now) && r[|r| - 4..] == Extension
  {
    var prefix, ts := NumberOrUnknown(number), Timestamp(now);
    var r := prefix + "_" + ts + Extension;
    assert r[..|prefix|] == prefix;
    assert r[|prefix| + 1..|r| - 4] == ts;
    assert r[|r| - 4..] == Extension;
    r
  }

  /** Splits a generated file name into its name part and date fields. */
  function ParseFilename(name: string): Option<(string, DateFields)> {
    if |name| >= 21 && name[|name| - 21] == '_' && name[|name| - 4..] == Extension then
      match ParseTimestamp(name[|name| - 20..|name| - 4])
      case Some(d) => Some((name[..|name| - 21], d))
      case None => None
    else
      None
  }

  /** A generated name can be read back: the name part and the truncated date. */
  lemma FilenameRoundTrip(number: Option<string>, now: DateFields)
    requires ValidDate(now)
    ensures ParseFilename(GenerateFilename(number, now)) == Some((NumberOrUnknown(number), Truncated(now)))
  {
    var r := GenerateFilename(number, now);
    var n := |NumberOrUnknown(number)|;
    assert |r| - 21 == n && |r| - 20 == n + 1;
    TimestampRoundTrip(now);
  }

  /** Two starts map to one file name only when they share the name part and
      fall, to the millisecond, on the same time of a century. */
  lemma FilenameCollision(n1: Option<string>, d1: DateFields, n2: Option<string>, d2: DateFields)
    requires ValidDate(d1) && ValidDate(d2)
    ensures GenerateFilename(n1, d1) == GenerateFilename(n2, d2) <==>
      NumberOrUnknown(n1) == NumberOrUnknown(n2) && Truncated(d1) == Truncated(d2)
  {
    FilenameRoundTrip(n1, d1);
    FilenameRoundTrip(n2, d2);
    if NumberOrUnknown(n1) == NumberOrUnknown(n2) && Truncated(d1) == Truncated(d2) {
      TimestampOfTruncated(d1);
      TimestampOfTruncated(d2);
    }
  }

  /** The timestamp depends on the year only through its last two digits. */
  lemma TimestampOfTruncated(d: DateFields)
    requires ValidDate(d)
    ensures Timestamp(Truncated(d)) == Timestamp(d)
  {
    assert d.year % 100 % 100 == d.year % 100;
  }
}
