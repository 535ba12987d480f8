/** The date handling around the step forms. The forms keep a JavaScript
    `Date` per date field while editing and store the text "dd/MM/yyyy" (or
    "") in the document. This module gives the part of that conversion the
    forms themselves write: `Number` on the pieces of a "/"-split string,
    `new Date(year, month - 1, day)`, the validity test, and the
    "dd/MM/yyyy" encoder. */
module DateCodec {
  import opened Wrappers
  import opened JsStrings

  /** A calendar date: day of the month, month (1-based) and year. */
  datatype CalendarDate = CalendarDate(day: nat, month: nat, year: nat)

  /** A JavaScript `Date`: a calendar date, or the Invalid Date whose time
      value is NaN. */
  datatype JsDate = Instant(date: CalendarDate) | InvalidDate

  /** `date instanceof Date && !isNaN(date.getTime())`, and date-fns `isValid`. */
  predicate IsValidDate(d: JsDate) {
    d.Instant?
  }

  predicate IsDigit(c: char) {
    '0' <= c <= '9'
  }

  predicate AllDigits(s: string) {
    forall k :: 0 <= k < |s| ==> IsDigit(s[k])
  }

  /** The value of a run of decimal digits (0 for the empty run). */
  function DigitsValue(s: string): nat
    requires AllDigits(s)
  {
    if |s| == 0 then 0 else DigitsValue(s[..|s| - 1]) * 10 + (s[|s| - 1] as int - '0' as int)
  }

  /** `Number(s)` on date pieces: a run of decimal digits gives its value
      (the empty string gives 0); anything else gives NaN, here None. */
  function ToNumber(s: string): (r: Option<nat>)
    ensures r.Some? <==> AllDigits(s)
  {
    if AllDigits(s) then Some(DigitsValue(s)) else None
  }

  /** `new Date(year, month - 1, day)`: NaN in any component gives the
      Invalid Date; a year from 0 to 99 means 1900 + year. Calendar rollover
      and the upper end of JavaScript's time range are not modelled. */
  function MakeDate(day: Option<nat>, month: Option<nat>, year: Option<nat>): (d: JsDate)
    ensures IsValidDate(d) <==> day.Some? && month.Some? && year.Some?
    ensures IsValidDate(d) ==> d.date.day == day.value && d.date.month == month.value
    ensures IsValidDate(d) ==> d.date.year == if year.value <= 99 then 1900 + year.value else year.value
  {
    if day.Some? && month.Some? && year.Some? then
      Instant(CalendarDate(day.value, month.value, if year.value <= 99 then 1900 + year.value else year.value))
    else
      InvalidDate
  }

  /** `const [day, month, year] = s.split("/").map(Number)` followed by
      `new Date(year, month - 1, day)`. A missing piece is `undefined`, whose
      `Number` is NaN, so the result is valid only when `s` has at least
      three pieces and the first three are numeric. */
  function FromSlashed(s: string): (d: JsDate)
    ensures IsValidDate(d) ==>
      var parts := Split(s, '/');
      |parts| >= 3 && AllDigits(parts[0]) && AllDigits(parts[1]) && AllDigits(parts[2])
    ensures var parts := Split(s, '/');
      |parts| >= 3 && AllDigits(parts[0]) && AllDigits(parts[1]) && AllDigits(parts[2]) ==>
        IsValidDate(d) && d.date.day == DigitsValue(parts[0]) && d.date.month == DigitsValue(parts[1]) &&
        d.date.year == (if DigitsValue(parts[2]) <= 99 then 1900 + DigitsValue(parts[2]) else DigitsValue(parts[2]))
  {
    var parts := Split(s, '/');
    MakeDate(ToNumber(parts[0]),
             if |parts| > 1 then ToNumber(parts[1]) else None,
             if |parts| > 2 then ToNumber(parts[2]) else None)
  }

  function DigitChar(d: nat): char
    requires d < 10
  {
    ('0' as int + d) as char
  }

  /** The decimal numeral of `n`, without leading zeros. */
  function Decimal(n: nat): (s: string)
    ensures |s| >= 1 && AllDigits(s) && DigitsValue(s) == n
    ensures |s| > 1 ==> s[0] != '0'
  {
    if n < 10 then [DigitChar(n)]
    else
      var s := Decimal(n / 10) + [DigitChar(n % 10)];
      assert s[..|s| - 1] == Decimal(n / 10);
      s
  }

  function Zeros(n: nat): (s: string)
    ensures |s| == n && forall k :: 0 <= k < n ==> s[k] == '0'
  {
    seq(n, _ => '0')
  }

  /** `s` left-padded with zeros to at least `width` characters. */
  function PadStart(s: string, width: nat): (r: string)
    ensures |r| >= width && |r| >= |s|
  {
    if |s| >= width then s else Zeros(width - |s|) + s
  }

  /** The canonical stored date text: exactly "dd/MM/yyyy", digits only. */
  predicate IsCanonical(s: string) {
    var parts := Split(s, '/');
    && |parts| == 3
    && AllDigits(parts[0]) && |parts[0]| == 2
    && AllDigits(parts[1]) && |parts[1]| == 2
    && AllDigits(parts[2]) && |parts[2]| == 4
  }

  /** A date whose day, month and year fit the two, two and four digits of
      "dd/MM/yyyy" (every real calendar date of years 0 to 9999 does). */
  predicate FitsCanonicalWidths(d: CalendarDate) {
    d.day <= 99 && d.month <= 99 && d.year <= 9999
  }

  /** date-fns `format(date, "dd/MM/yyyy")`. */
  function Format(d: CalendarDate): (s: string)
    ensures Split(s, '/') == FormatPieces(d)
    ensures FitsCanonicalWidths(d) ==> IsCanonical(s)
  {
    FormatSplits(d);
    PadStart(Decimal(d.day), 2) + "/" + PadStart(Decimal(d.month), 2) + "/" + PadStart(Decimal(d.year), 4)
  }

  lemma FormatSplits(d: CalendarDate)
    ensures var s := PadStart(Decimal(d.day), 2) + "/" + PadStart(Decimal(d.month), 2) + "/" + PadStart(Decimal(d.year), 4);
      && Split(s, '/') == FormatPieces(d)
      && (FitsCanonicalWidths(d) ==> IsCanonical(s))
  {
    var pieces := FormatPieces(d);
    var s := PadStart(Decimal(d.day), 2) + "/" + PadStart(Decimal(d.month), 2) + "/" + PadStart(Decimal(d.year), 4);
    PadStartDigits(Decimal(d.day), 2);
    PadStartDigits(Decimal(d.month), 2);
    PadStartDigits(Decimal(d.year), 4);
    assert s == Join(pieces, "/");
    SplitJoin(pieces, '/');
    if FitsCanonicalWidths(d) {
      DecimalWidth(d.day, 2);
      DecimalWidth(d.month, 2);
      DecimalWidth(d.year, 4);
    }
  }

  /** The three zero-padded numerals that "dd/MM/yyyy" joins with "/". */
  function FormatPieces(d: CalendarDate): seq<string> {
    [PadStart(Decimal(d.day), 2), PadStart(Decimal(d.month), 2), PadStart(Decimal(d.year), 4)]
  }

  /** What the forms store for a date field:
      `d && isValid(d) ? format(d, "dd/MM/yyyy") : ""`. */
  function EncodeDate(d: Option<JsDate>): (s: string)
    ensures s == "" <==> !(d.Some? && IsValidDate(d.value))
    ensures s != "" && FitsCanonicalWidths(d.value.date) ==> IsCanonical(s)
  {
    if d.Some? && IsValidDate(d.value) then Format(d.value.date) else ""
  }

  /** A form date that survives being written by `EncodeDate` and read back
      through `FromSlashed`: null, or a valid date from the year 100 on. */
  predicate Reloadable(d: Option<JsDate>) {
    d.None? || (IsValidDate(d.value) && d.value.date.year >= 100)
  }

  /** Reading back what was written: formatting a date and splitting it on
      "/" again gives the same date (years below 100 excepted, which the
      `Date` constructor maps into the 1900s). */
  lemma FormatThenParse(d: CalendarDate)
    requires d.year >= 100
    ensures FromSlashed(Format(d)) == Instant(d)
  {
    var pieces := FormatPieces(d);
    PadDecimalValue(d.day, 2);
    PadDecimalValue(d.month, 2);
    PadDecimalValue(d.year, 4);
    assert ToNumber(pieces[0]) == Some(d.day);
    assert ToNumber(pieces[1]) == Some(d.month);
    assert ToNumber(pieces[2]) == Some(d.year);
  }

  /** A formatted date contains the "/" that the parsers branch on. */
  lemma FormatHasSlash(d: CalendarDate)
    ensures '/' in Format(d)
  {
    if '/' !in Format(d) {
      SplitWithoutSeparator(Format(d), '/');
      assert false;
    }
  }

  /** The converse: every canonical "dd/MM/yyyy" text (with a year from 100
      on) parses to a valid date that formats back to the same text. */
  lemma ParseThenFormat(s: string)
    requires IsCanonical(s)
    requires DigitsValue(Split(s, '/')[2]) >= 100
    ensures IsValidDate(FromSlashed(s))
    ensures Format(FromSlashed(s).date) == s
  {
    var parts := Split(s, '/');
    var d := FromSlashed(s).date;
    PadDecimalDigits(parts[0]);
    PadDecimalDigits(parts[1]);
    PadDecimalDigits(parts[2]);
    assert FormatPieces(d) == parts;
    calc {
      Format(d);
      Join(Split(Format(d), '/'), "/");
      Join(parts, "/");
      s;
    }
  }

  lemma {:induction false} PadStartDigits(s: string, width: nat)
    requires AllDigits(s)
    ensures AllDigits(PadStart(s, width)) && '/' !in PadStart(s, width)
    ensures |s| <= width ==> |PadStart(s, width)| == width
  {
  }

  lemma DecimalWidth(n: nat, width: nat)
    requires width >= 1 && n < Pow10(width)
    ensures |Decimal(n)| <= width
  {
    if n >= 10 {
      DecimalWidth(n / 10, width - 1);
    }
  }

  function Pow10(k: nat): nat {
    if k == 0 then 1 else 10 * Pow10(k - 1)
  }

  /** Leading zeros do not change a numeral's value. */
  lemma {:induction false} ZerosPrefixValue(z: nat, s: string)
    requires AllDigits(s)
    ensures AllDigits(Zeros(z) + s) && DigitsValue(Zeros(z) + s) == DigitsValue(s)
  {
    var t := Zeros(z) + s;
    if |s| == 0 {
      assert t == Zeros(z);
      ZerosValue(z);
    } else {
      assert t[..|t| - 1] == Zeros(z) + s[..|s| - 1];
      ZerosPrefixValue(z, s[..|s| - 1]);
    }
  }

  lemma {:induction false} ZerosValue(z: nat)
    ensures DigitsValue(Zeros(z)) == 0
  {
    if z > 0 {
      assert Zeros(z)[..z - 1] == Zeros(z - 1);
      ZerosValue(z - 1);
    }
  }

  lemma PadDecimalValue(n: nat, width: nat)
    ensures AllDigits(PadStart(Decimal(n), width))
    ensures DigitsValue(PadStart(Decimal(n), width)) == n
  {
    var s := Decimal(n);
    if |s| < width {
      ZerosPrefixValue(width - |s|, s);
    }
  }

  /** A numeral with no leading zero is the decimal numeral of its value. */
  lemma {:induction false} DecimalOfDigits(t: string)
    requires AllDigits(t) && |t| >= 1 && (|t| == 1 || t[0] != '0')
    ensures Decimal(DigitsValue(t)) == t
  {
    if |t| > 1 {
      var t' := t[..|t| - 1];
      DigitsPositive(t');
      DecimalOfDigits(t');
      var v := DigitsValue(t);
      assert v / 10 == DigitsValue(t') && v % 10 == t[|t| - 1] as int - '0' as int;
    }
  }

  lemma {:induction false} DigitsPositive(t: string)
    requires AllDigits(t) && |t| >= 1 && t[0] != '0'
    ensures DigitsValue(t) >= 1
  {
    if |t| > 1 {
      DigitsPositive(t[..|t| - 1]);
    }
  }

  /** A non-empty run of digits is its own value padded back to its width. */
  lemma {:induction false} PadDecimalDigits(t: string)
    requires AllDigits(t) && |t| >= 1
    ensures PadStart(Decimal(DigitsValue(t)), |t|) == t
  {
    if |t| == 1 || t[0] != '0' {
      DecimalOfDigits(t);
    } else {
      var u := t[1..];
      assert t == Zeros(1) + u;
      ZerosPrefixValue(1, u);
      PadDecimalDigits(u);
      var s := Decimal(DigitsValue(u));
      assert PadStart(s, |t|) == Zeros(1) + PadStart(s, |u|);
    }
  }
}
