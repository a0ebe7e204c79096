/** Timestamps of the calendar documents: the basic ISO 8601 UTC form `YYYYMMDDTHHMMSSZ`
    of section 3.3.5 of RFC 5545, obtained the way `formatICSDate` obtains it, by
    stripping the separators out of JavaScript's `toISOString()` text and cutting off
    the milliseconds. */
module IcsDate {
  import opened Text

  /** An instant already split into UTC calendar fields, as `Date` holds them. */
  datatype Timestamp = Timestamp(year: int, month: int, day: int, hour: int, minute: int, second: int, millisecond: int)

  /** The field ranges of a JavaScript `Date`, whose years run from -271821 to 275760. */
  predicate ValidTimestamp(t: Timestamp)
  {
    -271821 <= t.year <= 275760 &&
    1 <= t.month <= 12 && 1 <= t.day <= 31 &&
    0 <= t.hour <= 23 && 0 <= t.minute <= 59 && 0 <= t.second <= 59 &&
    0 <= t.millisecond <= 999
  }

  predicate AllDigits(s: string)
  {
    forall i :: 0 <= i < |s| ==> IsDigit(s[i])
  }

  function Pow10(k: nat): (p: nat)
    ensures p >= 1
  {
    if k == 0 then 1 else 10 * Pow10(k - 1)
  }

  /** The last `width` decimal digits of `n`, zero-padded on the left. */
  function Fixed(n: nat, width: nat): (r: string)
    ensures |r| == width && AllDigits(r)
    ensures n < Pow10(width) ==> DigitsValue(r) == n
    decreases width
  {
    if width == 0 then ""
    else
      var r := Fixed(n / 10, width - 1) + [Digit(n % 10)];
      assert r[..|r| - 1] == Fixed(n / 10, width - 1);
      assert n < Pow10(width) ==> n / 10 < Pow10(width - 1);
      r
  }

  /** The year as `toISOString` writes it: four digits for years 0 to 9999, otherwise
      the expanded form, a sign followed by six digits. */
  function YearText(y: int): string
  {
    if 0 <= y <= 9999 then Fixed(y, 4)
    else (if y < 0 then "-" else "+") + Fixed(if y < 0 then -y else y, 6)
  }

  /** `toISOString()`: `YYYY-MM-DDTHH:mm:ss.sssZ`. */
  function IsoString(t: Timestamp): string
    requires ValidTimestamp(t)
  {
    DatePart(t) + "T" + TimePart(t) + "." + Fixed(t.millisecond, 3) + "Z"
  }

  function DatePart(t: Timestamp): string
    requires ValidTimestamp(t)
  {
    YearText(t.year) + "-" + Fixed(t.month, 2) + "-" + Fixed(t.day, 2)
  }

  function TimePart(t: Timestamp): string
    requires ValidTimestamp(t)
  {
    Fixed(t.hour, 2) + ":" + Fixed(t.minute, 2) + ":" + Fixed(t.second, 2)
  }

  /** `s.replace(/[-:]/g, '')`. */
  function StripSeparators(s: string): string
    decreases |s|
  {
    if |s| == 0 then ""
    else (if s[0] == '-' || s[0] == ':' then "" else [s[0]]) + StripSeparators(s[1..])
  }

  /** `s.split('.')[0]`: everything before the first dot. */
  function BeforeDot(s: string): string
    decreases |s|
  {
    if |s| == 0 || s[0] == '.' then "" else [s[0]] + BeforeDot(s[1..])
  }

  /** `formatICSDate`. */
  function FormatIcsDate(t: Timestamp): (r: string)
    requires ValidTimestamp(t)
    ensures r == CompactUtc(t)
    ensures 0 <= t.year <= 9999 ==> |r| == 16 && ParseIcsDate(r) == Some(FieldsOf(t))
    ensures t.year > 9999 ==> |r| == 19 && r[0] == '+'
    ensures t.year < 0 ==> |r| == 18 && forall i :: 0 <= i < |r| ==> r[i] != '-'
    ensures |r| > 0 && r[|r| - 1] == 'Z' && NoLineBreak(r)
  {
    FormatIcsDateIsCompact(t);
    CompactUtcShape(t);
    BeforeDot(StripSeparators(IsoString(t))) + "Z"
  }

  /** `formatICSDate(d).slice(0, -1)`: the same digits without the final `Z`, as
      `DTSTART` and `DTEND` carry them. */
  function LocalIcsDate(t: Timestamp): (r: string)
    requires ValidTimestamp(t)
    ensures r + "Z" == FormatIcsDate(t)
    ensures r == CompactDate(t) + "T" + CompactTime(t)
    ensures NoLineBreak(r)
  {
    var f := FormatIcsDate(t);
    assert f == (CompactDate(t) + "T" + CompactTime(t)) + "Z";
    f[..|f| - 1]
  }

  /** The calendar fields a basic UTC timestamp text names. */
  datatype Fields = Fields(year: int, month: int, day: int, hour: int, minute: int, second: int)

  function FieldsOf(t: Timestamp): Fields
  {
    Fields(t.year, t.month, t.day, t.hour, t.minute, t.second)
  }

  /** Reads back a `YYYYMMDDTHHMMSSZ` text; anything of another shape is refused. */
  function ParseIcsDate(s: string): Option<Fields>
  {
    if |s| == 16 && s[8] == 'T' && s[15] == 'Z' && AllDigits(s[..8]) && AllDigits(s[9..15]) then
      var date, time := s[..8], s[9..15];
      Some(Fields(DigitsValue(date[..4]), DigitsValue(date[4..6]), DigitsValue(date[6..]),
                  DigitsValue(time[..2]), DigitsValue(time[2..4]), DigitsValue(time[4..])))
    else None
  }

  /** The year text once its separators are stripped: the dash of a negative year goes too. */
  function StrippedYear(y: int): (r: string)
    ensures 0 <= y <= 9999 ==> r == Fixed(y, 4)
    ensures y < 0 ==> r == Fixed(-y, 6)
    ensures y > 9999 ==> r == "+" + Fixed(y, 6)
  {
    if 0 <= y <= 9999 then Fixed(y, 4)
    else if y < 0 then Fixed(-y, 6)
    else "+" + Fixed(y, 6)
  }

  function CompactDate(t: Timestamp): string
    requires ValidTimestamp(t)
  {
    StrippedYear(t.year) + Fixed(t.month, 2) + Fixed(t.day, 2)
  }

  function CompactTime(t: Timestamp): string
    requires ValidTimestamp(t)
  {
    Fixed(t.hour, 2) + Fixed(t.minute, 2) + Fixed(t.second, 2)
  }

  /** Reference definition of the formatted timestamp, built from the fields directly:
      year, month, day, `T`, hour, minute, second, `Z`, every field zero-padded. */
  function CompactUtc(t: Timestamp): string
    requires ValidTimestamp(t)
  {
    CompactDate(t) + "T" + CompactTime(t) + "Z"
  }

  predicate NoSeparator(s: string)
  {
    forall i :: 0 <= i < |s| ==> s[i] != '-' && s[i] != ':' && s[i] != '.'
  }

  lemma NoSeparatorConcat(a: string, b: string)
    requires NoSeparator(a) && NoSeparator(b)
    ensures NoSeparator(a + b)
  {
    forall i | 0 <= i < |a + b| ensures (a + b)[i] != '-' && (a + b)[i] != ':' && (a + b)[i] != '.' {
      if i >= |a| {
        assert (a + b)[i] == b[i - |a|];
      }
    }
  }

  lemma {:induction false} StripConcat(a: string, b: string)
    ensures StripSeparators(a + b) == StripSeparators(a) + StripSeparators(b)
    decreases |a|
  {
    if |a| == 0 {
      assert a + b == b;
    } else {
      assert (a + b)[0] == a[0] && (a + b)[1..] == a[1..] + b;
      StripConcat(a[1..], b);
    }
  }

  lemma {:induction false} StripPlain(s: string)
    requires NoSeparator(s)
    ensures StripSeparators(s) == s
    decreases |s|
  {
    if |s| > 0 {
      assert NoSeparator(s[1..]);
      StripPlain(s[1..]);
      assert [s[0]] + s[1..] == s;
    }
  }

  lemma {:induction false} BeforeDotConcat(a: string, b: string)
    requires NoSeparator(a)
    ensures BeforeDot(a + "." + b) == a
    decreases |a|
  {
    if |a| == 0 {
      assert (a + "." + b)[0] == '.';
    } else {
      assert (a + "." + b)[0] == a[0];
      assert (a + "." + b)[1..] == a[1..] + "." + b;
      assert NoSeparator(a[1..]);
      BeforeDotConcat(a[1..], b);
      assert [a[0]] + a[1..] == a;
    }
  }

  lemma StripYear(y: int)
    requires -271821 <= y <= 275760
    ensures StripSeparators(YearText(y)) == StrippedYear(y)
    ensures NoSeparator(StrippedYear(y))
  {
    if 0 <= y <= 9999 {
      FixedNoSeparator(y, 4);
      StripPlain(Fixed(y, 4));
    } else {
      var f := Fixed(if y < 0 then -y else y, 6);
      FixedNoSeparator(if y < 0 then -y else y, 6);
      StripPlain(f);
      StripSign(if y < 0 then "-" else "+", f);
    }
  }

  lemma StripSign(sign: string, f: string)
    requires sign == "-" || sign == "+"
    requires StripSeparators(f) == f && NoSeparator(f)
    ensures StripSeparators(sign + f) == (if sign == "-" then f else sign + f)
    ensures sign == "+" ==> NoSeparator(sign + f)
  {
    StripConcat(sign, f);
    assert sign[1..] == "";
    assert StripSeparators(sign) == if sign == "-" then "" else "+";
    assert NoSeparator("+");
    if sign == "+" { NoSeparatorConcat(sign, f); }
  }

  /** Stripping a text made of a head and two separator-free fields joined by a separator. */
  lemma StripFields(head: string, sep: string, b: string, c: string)
    requires StripSeparators(sep) == "" && NoSeparator(b) && NoSeparator(c)
    ensures StripSeparators(head + sep + b + sep + c) == StripSeparators(head) + b + c
  {
    StripJoin(head, sep, b);
    StripJoin(head + sep + b, sep, c);
  }

  lemma StripJoin(head: string, sep: string, b: string)
    requires StripSeparators(sep) == "" && NoSeparator(b)
    ensures StripSeparators(head + sep + b) == StripSeparators(head) + b
  {
    StripPlain(b);
    StripConcat(head, sep);
    StripConcat(head + sep, b);
  }

  lemma FixedNoSeparator(n: nat, width: nat)
    ensures NoSeparator(Fixed(n, width))
  {
    var f := Fixed(n, width);
    forall i | 0 <= i < |f| ensures f[i] != '-' && f[i] != ':' && f[i] != '.' { assert IsDigit(f[i]); }
  }

  lemma StripDate(t: Timestamp)
    requires ValidTimestamp(t)
    ensures StripSeparators(DatePart(t)) == CompactDate(t)
    ensures NoSeparator(CompactDate(t))
  {
    var mo, d := Fixed(t.month, 2), Fixed(t.day, 2);
    FixedNoSeparator(t.month, 2); FixedNoSeparator(t.day, 2);
    assert StripSeparators("-") == "";
    StripYear(t.year);
    StripFields(YearText(t.year), "-", mo, d);
    var sy := StrippedYear(t.year);
    NoSeparatorConcat(sy, mo);
    NoSeparatorConcat(sy + mo, d);
  }

  lemma StripTime(t: Timestamp)
    requires ValidTimestamp(t)
    ensures StripSeparators(TimePart(t)) == CompactTime(t)
    ensures AllDigits(CompactTime(t)) && |CompactTime(t)| == 6 && NoSeparator(CompactTime(t))
  {
    var h, mi, s := Fixed(t.hour, 2), Fixed(t.minute, 2), Fixed(t.second, 2);
    FixedNoSeparator(t.hour, 2); FixedNoSeparator(t.minute, 2); FixedNoSeparator(t.second, 2);
    assert StripSeparators(":") == "";
    StripFields(h, ":", mi, s);
    StripPlain(h);
    NoSeparatorConcat(h, mi);
    NoSeparatorConcat(h + mi, s);
  }

  /** The ISO text's shape, stripped and cut at the dot: the date and time digits around `T`. */
  lemma StripIso(dp: string, tp: string, ms: string, cd: string, ct: string)
    requires StripSeparators(dp) == cd && StripSeparators(tp) == ct
    requires NoSeparator(cd) && NoSeparator(ct) && NoSeparator(ms)
    ensures BeforeDot(StripSeparators(dp + "T" + tp + "." + ms + "Z")) + "Z" == cd + "T" + ct + "Z"
  {
    StripPlain(ms); StripPlain("T"); StripPlain("Z");
    assert StripSeparators(".") == ".";
    StripConcat(dp, "T"); StripConcat(dp + "T", tp); StripConcat(dp + "T" + tp, ".");
    StripConcat(dp + "T" + tp + ".", ms); StripConcat(dp + "T" + tp + "." + ms, "Z");
    var a := cd + "T" + ct;
    assert StripSeparators(dp + "T" + tp + "." + ms + "Z") == a + "." + (ms + "Z");
    NoSeparatorConcat(cd, "T");
    NoSeparatorConcat(cd + "T", ct);
    BeforeDotConcat(a, ms + "Z");
  }

  /** Stripping the separators from `toISOString()` and cutting at the dot leaves the compact form. */
  lemma FormatIcsDateIsCompact(t: Timestamp)
    requires ValidTimestamp(t)
    ensures BeforeDot(StripSeparators(IsoString(t))) + "Z" == CompactUtc(t)
  {
    StripDate(t); StripTime(t);
    FixedNoSeparator(t.millisecond, 3);
    StripIso(DatePart(t), TimePart(t), Fixed(t.millisecond, 3), CompactDate(t), CompactTime(t));
  }

  lemma ParseCompactDate(t: Timestamp)
    requires ValidTimestamp(t) && 0 <= t.year <= 9999
    ensures |CompactDate(t)| == 8 && AllDigits(CompactDate(t))
    ensures CompactDate(t)[..4] == Fixed(t.year, 4)
    ensures CompactDate(t)[4..6] == Fixed(t.month, 2)
    ensures CompactDate(t)[6..] == Fixed(t.day, 2)
  {
    var d := CompactDate(t);
    assert d == Fixed(t.year, 4) + Fixed(t.month, 2) + Fixed(t.day, 2);
  }

  lemma ParseCompactTime(t: Timestamp)
    requires ValidTimestamp(t)
    ensures CompactTime(t)[..2] == Fixed(t.hour, 2)
    ensures CompactTime(t)[2..4] == Fixed(t.minute, 2)
    ensures CompactTime(t)[4..] == Fixed(t.second, 2)
  {
  }

  /** Characters the compact form is made of. */
  predicate CompactChars(s: string)
  {
    forall i :: 0 <= i < |s| ==> IsDigit(s[i]) || s[i] == 'T' || s[i] == 'Z' || s[i] == '+'
  }

  lemma CompactCharsConcat(a: string, b: string)
    requires CompactChars(a) && CompactChars(b)
    ensures CompactChars(a + b)
  {
    forall i | |a| <= i < |a + b| ensures (a + b)[i] == b[i - |a|] {}
  }

  lemma FixedCompact(n: nat, width: nat)
    ensures CompactChars(Fixed(n, width))
  {
  }

  lemma YearCompact(y: int)
    ensures CompactChars(StrippedYear(y))
    ensures |StrippedYear(y)| == if 0 <= y <= 9999 then 4 else if y < 0 then 6 else 7
    ensures y > 9999 ==> StrippedYear(y)[0] == '+'
  {
    if y > 9999 {
      FixedCompact(y, 6);
      assert CompactChars("+");
      CompactCharsConcat("+", Fixed(y, 6));
    } else {
      FixedCompact(if y < 0 then -y else y, if y < 0 then 6 else 4);
    }
  }

  /** The compact form's characters, put together from its fields. */
  lemma CompactAssembly(sy: string, mo: string, d: string, h: string, mi: string, s: string)
    requires CompactChars(sy) && CompactChars(mo) && CompactChars(d)
    requires CompactChars(h) && CompactChars(mi) && CompactChars(s)
    ensures CompactChars(sy + mo + d + "T" + (h + mi + s) + "Z")
  {
    CompactCharsConcat(sy, mo); CompactCharsConcat(sy + mo, d);
    assert CompactChars("T") && CompactChars("Z");
    CompactCharsConcat(h, mi); CompactCharsConcat(h + mi, s);
    var cd, ct := sy + mo + d, h + mi + s;
    CompactCharsConcat(cd, "T"); CompactCharsConcat(cd + "T", ct); CompactCharsConcat(cd + "T" + ct, "Z");
  }

  lemma CompactUtcChars(t: Timestamp)
    requires ValidTimestamp(t)
    ensures CompactChars(CompactUtc(t))
  {
    YearCompact(t.year);
    FixedCompact(t.month, 2); FixedCompact(t.day, 2);
    FixedCompact(t.hour, 2); FixedCompact(t.minute, 2); FixedCompact(t.second, 2);
    CompactAssembly(StrippedYear(t.year), Fixed(t.month, 2), Fixed(t.day, 2),
                    Fixed(t.hour, 2), Fixed(t.minute, 2), Fixed(t.second, 2));
  }

  lemma CompactCharsNoBreak(r: string)
    requires CompactChars(r)
    ensures NoLineBreak(r) && forall i :: 0 <= i < |r| ==> r[i] != '-'
  {
  }

  lemma CompactUtcParse(t: Timestamp)
    requires ValidTimestamp(t) && 0 <= t.year <= 9999
    ensures |CompactUtc(t)| == 16 && ParseIcsDate(CompactUtc(t)) == Some(FieldsOf(t))
  {
    var cd, ct := CompactDate(t), CompactTime(t);
    ParseCompactDate(t);
    ParseCompactTime(t);
    StripTime(t);
    var tail := "T" + (ct + "Z");
    var r := cd + tail;
    assert CompactUtc(t) == r;
    assert r[..8] == cd && r[8..] == tail;
    assert r[9..15] == tail[1..7] == ct;
    assert r[15] == 'Z';
    assert Pow10(2) == 100 && Pow10(4) == 10000;
  }

  lemma Frame(sy: string, mo: string, d: string, ct: string)
    requires |sy| > 0 && |mo| == 2 && |d| == 2 && |ct| == 6
    ensures var r := sy + mo + d + "T" + ct + "Z";
      |r| == |sy| + 12 && r[0] == sy[0] && r[|r| - 1] == 'Z'
  {
  }

  lemma CompactUtcFrame(t: Timestamp)
    requires ValidTimestamp(t)
    ensures var r := CompactUtc(t); var sy := StrippedYear(t.year);
      |r| == |sy| + 12 && r[0] == sy[0] && r[|r| - 1] == 'Z'
  {
    YearCompact(t.year);
    StripTime(t);
    Frame(StrippedYear(t.year), Fixed(t.month, 2), Fixed(t.day, 2), CompactTime(t));
  }

  /** Length and shape of the compact form, and for four-digit years its parse. */
  lemma CompactUtcShape(t: Timestamp)
    requires ValidTimestamp(t)
    ensures var r := CompactUtc(t);
      (0 <= t.year <= 9999 ==> |r| == 16 && ParseIcsDate(r) == Some(FieldsOf(t))) &&
      (t.year > 9999 ==> |r| == 19 && r[0] == '+') &&
      (t.year < 0 ==> |r| == 18 && forall i :: 0 <= i < |r| ==> r[i] != '-') &&
      |r| > 0 && r[|r| - 1] == 'Z' && NoLineBreak(r)
  {
    CompactUtcChars(t);
    CompactCharsNoBreak(CompactUtc(t));
    YearCompact(t.year);
    CompactUtcFrame(t);
    if 0 <= t.year <= 9999 {
      CompactUtcParse(t);
    }
  }
}
