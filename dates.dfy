/** Calendar instants to the second, and the fixed-width
    `yyyy/MM/dd:HH:mm:ss` rendering the changes command uses for the two
    ends of its time window. */
module Dates {
  import opened Wrappers
  import opened Text

  /** The fields of a .NET DateTime down to the second. */
  datatype Instant = Instant(year: int, month: int, day: int, hour: int, minute: int, second: int)

  /** Gregorian leap years. */
  predicate IsLeapYear(y: int)
  {
    y % 4 == 0 && (y % 100 != 0 || y % 400 == 0)
  }

  function DaysInMonth(y: int, m: int): (n: int)
    requires 1 <= m <= 12
    ensures 28 <= n <= 31
    ensures n == 29 <==> m == 2 && IsLeapYear(y)
  {
    if m == 2 then (if IsLeapYear(y) then 29 else 28)
    else if m == 4 || m == 6 || m == 9 || m == 11 then 30
    else 31
  }

  /** The values a DateTime can hold: years 1 to 9999, a real day of a
      real month, and a time of day on the 24-hour clock. */
  predicate IsValid(d: Instant)
  {
    && 1 <= d.year <= 9999
    && 1 <= d.month <= 12
    && 1 <= d.day <= DaysInMonth(d.year, d.month)
    && 0 <= d.hour < 24
    && 0 <= d.minute < 60
    && 0 <= d.second < 60
  }

  type DateTime = d: Instant | IsValid(d) witness Instant(1, 1, 1, 0, 0, 0)

  function Pow10(n: nat): (p: nat)
    ensures p >= 1
  {
    if n == 0 then 1 else 10 * Pow10(n - 1)
  }

  function DigitChar(n: nat): (c: char)
    requires n < 10
    ensures IsDigit(c)
  {
    (48 + n) as char
  }

  function DigitValue(c: char): (n: nat)
    requires IsDigit(c)
    ensures n < 10 && DigitChar(n) == c
  {
    c as int - 48
  }

  /** `n` written in exactly `width` decimal digits, zero-padded on the left. */
  function Pad(n: nat, width: nat): (s: string)
    requires n < Pow10(width)
    ensures |s| == width && AllDigits(s)
    decreases width
  {
    if width == 0 then []
    else Pad(n / 10, width - 1) + [DigitChar(n % 10)]
  }

  /** The number a string of decimal digits denotes. */
  function Value(s: string): (v: nat)
    requires AllDigits(s)
    ensures v < Pow10(|s|)
    decreases |s|
  {
    if s == [] then 0
    else 10 * Value(s[..|s| - 1]) + DigitValue(s[|s| - 1])
  }

  /** Reading back a padded number gives the number. */
  lemma {:induction false} ValuePad(n: nat, width: nat)
    requires n < Pow10(width)
    ensures Value(Pad(n, width)) == n
    decreases width
  {
    if width > 0 {
      var s := Pad(n, width);
      assert s[..|s| - 1] == Pad(n / 10, width - 1);
      ValuePad(n / 10, width - 1);
    }
  }

  /** Padding the value of a digit string to its own length gives it back. */
  lemma {:induction false} PadValue(s: string)
    requires AllDigits(s)
    ensures Pad(Value(s), |s|) == s
    decreases |s|
  {
    if s != [] {
      var init := s[..|s| - 1];
      var v := Value(s);
      assert v / 10 == Value(init) && v % 10 == DigitValue(s[|s| - 1]);
      PadValue(init);
      assert s == init + [s[|s| - 1]];
    }
  }

  /** Positions of the separators in a rendered date. */
  predicate IsSeparatorPosition(i: int)
  {
    i == 4 || i == 7 || i == 10 || i == 13 || i == 16
  }

  /** The shape of `yyyy/MM/dd:HH:mm:ss`: nineteen characters, digits
      everywhere but the five separators. */
  predicate HasDateShape(s: string)
  {
    && |s| == 19
    && s[4] == '/' && s[7] == '/' && s[10] == ':' && s[13] == ':' && s[16] == ':'
    && forall i :: 0 <= i < 19 && !IsSeparatorPosition(i) ==> IsDigit(s[i])
  }

  /** Lays out the six digit fields with their separators. */
  function Assemble(y: string, mo: string, d: string, h: string, mi: string, s: string): string
  {
    y + "/" + mo + "/" + d + ":" + h + ":" + mi + ":" + s
  }

  /** The six fields sit at fixed offsets of the layout. */
  lemma AssembleFields(y: string, mo: string, d: string, h: string, mi: string, s: string)
    requires |y| == 4 && |mo| == 2 && |d| == 2 && |h| == 2 && |mi| == 2 && |s| == 2
    ensures var r := Assemble(y, mo, d, h, mi, s);
      r[0..4] == y && r[5..7] == mo && r[8..10] == d && r[11..13] == h && r[14..16] == mi && r[17..19] == s
  {
  }

  /** Digit fields of the right widths lay out to the date shape, with no
      space anywhere. */
  lemma AssembleShape(y: string, mo: string, d: string, h: string, mi: string, s: string)
    requires |y| == 4 && |mo| == 2 && |d| == 2 && |h| == 2 && |mi| == 2 && |s| == 2
    requires AllDigits(y) && AllDigits(mo) && AllDigits(d) && AllDigits(h) && AllDigits(mi) && AllDigits(s)
    ensures HasDateShape(Assemble(y, mo, d, h, mi, s))
    ensures ' ' !in Assemble(y, mo, d, h, mi, s)
  {
    var r := Assemble(y, mo, d, h, mi, s);
    AssembleFields(y, mo, d, h, mi, s);
    assert r[4] == '/' && r[7] == '/' && r[10] == ':' && r[13] == ':' && r[16] == ':';
    forall i | 0 <= i < 19 && !IsSeparatorPosition(i)
      ensures IsDigit(r[i])
    {
      if i < 4 { assert r[i] == r[0..4][i]; }
      else if i < 7 { assert r[i] == r[5..7][i - 5]; }
      else if i < 10 { assert r[i] == r[8..10][i - 8]; }
      else if i < 13 { assert r[i] == r[11..13][i - 11]; }
      else if i < 16 { assert r[i] == r[14..16][i - 14]; }
      else { assert r[i] == r[17..19][i - 17]; }
    }
    assert forall i :: 0 <= i < 19 ==> r[i] != ' ' by {
      forall i | 0 <= i < 19
        ensures r[i] != ' '
      {
        if !IsSeparatorPosition(i) { assert IsDigit(r[i]); }
      }
    }
  }

  /** Renders `d` as `yyyy/MM/dd:HH:mm:ss`, zero-padded, 24-hour clock. */
  function Format(d: DateTime): (r: string)
    ensures HasDateShape(r)
    ensures ' ' !in r
  {
    AssembleShape(Pad(d.year, 4), Pad(d.month, 2), Pad(d.day, 2),
                  Pad(d.hour, 2), Pad(d.minute, 2), Pad(d.second, 2));
    Assemble(Pad(d.year, 4), Pad(d.month, 2), Pad(d.day, 2),
             Pad(d.hour, 2), Pad(d.minute, 2), Pad(d.second, 2))
  }

  /** A string of the date shape is the layout of its own fields. */
  lemma Reassemble(s: string)
    requires HasDateShape(s)
    ensures s == Assemble(s[0..4], s[5..7], s[8..10], s[11..13], s[14..16], s[17..19])
  {
    assert s[0..4] + "/" == s[0..5];
    assert s[0..5] + s[5..7] == s[0..7];
    assert s[0..7] + "/" == s[0..8];
    assert s[0..8] + s[8..10] == s[0..10];
    assert s[0..10] + ":" == s[0..11];
    assert s[0..11] + s[11..13] == s[0..13];
    assert s[0..13] + ":" == s[0..14];
    assert s[0..14] + s[14..16] == s[0..16];
    assert s[0..16] + ":" == s[0..17];
    assert s[0..17] + s[17..19] == s;
  }

  lemma DateFields(s: string)
    requires HasDateShape(s)
    ensures AllDigits(s[0..4]) && AllDigits(s[5..7]) && AllDigits(s[8..10])
    ensures AllDigits(s[11..13]) && AllDigits(s[14..16]) && AllDigits(s[17..19])
  {
    assert forall j :: 0 <= j < 4 ==> s[0..4][j] == s[j];
    assert forall j :: 0 <= j < 2 ==> s[5..7][j] == s[5 + j] && s[8..10][j] == s[8 + j];
    assert forall j :: 0 <= j < 2 ==> s[11..13][j] == s[11 + j] && s[14..16][j] == s[14 + j];
    assert forall j :: 0 <= j < 2 ==> s[17..19][j] == s[17 + j];
  }

  /** Reads a `yyyy/MM/dd:HH:mm:ss` string back into an instant; None when
      the shape is wrong or the fields name no real date and time. */
  function Parse(s: string): (r: Option<DateTime>)
  {
    if !HasDateShape(s) then None
    else
      DateFields(s);
      var d := Instant(Value(s[0..4]), Value(s[5..7]), Value(s[8..10]),
                       Value(s[11..13]), Value(s[14..16]), Value(s[17..19]));
      if IsValid(d) then Some(d) else None
  }

  /** The rendering loses nothing: parsing it gives the instant back. */
  lemma ParseFormat(d: DateTime)
    ensures Parse(Format(d)) == Some(d)
  {
    AssembleFields(Pad(d.year, 4), Pad(d.month, 2), Pad(d.day, 2),
                   Pad(d.hour, 2), Pad(d.minute, 2), Pad(d.second, 2));
    ValuePad(d.year, 4);
    ValuePad(d.month, 2);
    ValuePad(d.day, 2);
    ValuePad(d.hour, 2);
    ValuePad(d.minute, 2);
    ValuePad(d.second, 2);
  }

  /** Every string that parses is the rendering of what it parses to, so
      the rendering is the only spelling of each instant. */
  lemma FormatParse(s: string)
    requires Parse(s).Some?
    ensures Format(Parse(s).value) == s
  {
    DateFields(s);
    var d := Parse(s).value;
    assert d.year == Value(s[0..4]) && d.month == Value(s[5..7]) && d.day == Value(s[8..10]);
    assert d.hour == Value(s[11..13]) && d.minute == Value(s[14..16]) && d.second == Value(s[17..19]);
    PadValue(s[0..4]);
    PadValue(s[5..7]);
    PadValue(s[8..10]);
    PadValue(s[11..13]);
    PadValue(s[14..16]);
    PadValue(s[17..19]);
    assert Format(d) == Assemble(s[0..4], s[5..7], s[8..10], s[11..13], s[14..16], s[17..19]);
    Reassemble(s);
  }

  /** Rendering is injective: distinct instants never share a string. */
  lemma FormatInjective(d1: DateTime, d2: DateTime)
    requires Format(d1) == Format(d2)
    ensures d1 == d2
  {
    ParseFormat(d1);
    ParseFormat(d2);
  }
}
