/** Small string toolkit shared by the calendar generator and the e-mail validator:
    optional values with JavaScript truthiness, `Array.prototype.join`, a CRLF line
    splitter (the reader's side of the join), counting and decimal rendering. */
module Text {

  datatype Option<+T> = None | Some(value: T)

  /** A JavaScript value that is an optional string is truthy when it is present and non-empty. */
  predicate Truthy(o: Option<string>)
  {
    o.Some? && o.value != ""
  }

  /** JavaScript `o || fallback` for an optional string. */
  function OrElse(o: Option<string>, fallback: string): (r: string)
    ensures Truthy(o) ==> r == o.value
    ensures !Truthy(o) ==> r == fallback
  {
    if Truthy(o) then o.value else fallback
  }

  predicate StartsWith(s: string, prefix: string)
  {
    |prefix| <= |s| && s[..|prefix|] == prefix
  }

  /** `parts.join(sep)`: separators between the parts, none after the last one. */
  function Join(parts: seq<string>, sep: string): string
    decreases |parts|
  {
    if |parts| == 0 then ""
    else if |parts| == 1 then parts[0]
    else parts[0] + sep + Join(parts[1..], sep)
  }

  lemma {:induction false} JoinSnoc(parts: seq<string>, x: string, sep: string)
    requires |parts| > 0
    ensures Join(parts + [x], sep) == Join(parts, sep) + sep + x
    decreases |parts|
  {
    if |parts| == 1 {
      assert parts + [x] == [parts[0], x];
      assert [parts[0], x][1..] == [x];
    } else {
      assert (parts + [x])[1..] == parts[1..] + [x];
      JoinSnoc(parts[1..], x, sep);
    }
  }

  lemma {:induction false} JoinConcat(a: seq<string>, b: seq<string>, sep: string)
    requires |a| > 0 && |b| > 0
    ensures Join(a + b, sep) == Join(a, sep) + sep + Join(b, sep)
    decreases |a|
  {
    if |a| == 1 {
      assert (a + b)[1..] == b;
    } else {
      assert (a + b)[1..] == a[1..] + b;
      JoinConcat(a[1..], b, sep);
    }
  }

  /** A character of one of the parts is a character of the joined text. */
  lemma {:induction false} JoinContains(parts: seq<string>, sep: string, i: nat, c: char)
    requires i < |parts| && c in parts[i]
    ensures c in Join(parts, sep)
    decreases i
  {
    if i > 0 {
      JoinContains(parts[1..], sep, i - 1, c);
    }
  }

  const Crlf: string := "\r\n"

  predicate NoLineBreak(l: string)
  {
    forall i :: 0 <= i < |l| ==> l[i] != '\r' && l[i] != '\n'
  }

  /** Splits a text at every CR LF pair, with no unfolding of continuation lines;
      the inverse of joining with CRLF. */
  function SplitCrlf(s: string): (r: seq<string>)
    ensures |r| >= 1
    decreases |s|
  {
    if |s| == 0 then [""]
    else if |s| >= 2 && s[0] == '\r' && s[1] == '\n' then [""] + SplitCrlf(s[2..])
    else
      var rest := SplitCrlf(s[1..]);
      [[s[0]] + rest[0]] + rest[1..]
  }

  lemma {:induction false} SplitCrlfSingle(l: string)
    requires '\r' !in l
    ensures SplitCrlf(l) == [l]
    decreases |l|
  {
    if |l| > 0 {
      SplitCrlfSingle(l[1..]);
      assert [l[0]] + l[1..] == l;
    }
  }

  lemma {:induction false} SplitCrlfCons(l: string, t: string)
    requires '\r' !in l
    ensures SplitCrlf(l + Crlf + t) == [l] + SplitCrlf(t)
    decreases |l|
  {
    var s := l + Crlf + t;
    if |l| == 0 {
      assert s == "\r\n" + t;
      assert s[2..] == t;
    } else {
      assert s[0] == l[0];
      assert s[1..] == l[1..] + Crlf + t;
      SplitCrlfCons(l[1..], t);
      assert [l[0]] + l[1..] == l;
    }
  }

  /** Joining CR-free lines with CRLF and splitting the text again gives back the lines. */
  lemma {:induction false} SplitJoinCrlf(lines: seq<string>)
    requires |lines| >= 1
    requires forall i :: 0 <= i < |lines| ==> '\r' !in lines[i]
    ensures SplitCrlf(Join(lines, Crlf)) == lines
    decreases |lines|
  {
    if |lines| == 1 {
      SplitCrlfSingle(lines[0]);
    } else {
      SplitJoinCrlf(lines[1..]);
      SplitCrlfCons(lines[0], Join(lines[1..], Crlf));
      assert [lines[0]] + lines[1..] == lines;
    }
  }

  /** Parts and separator without line breaks join to a text without line breaks. */
  lemma {:induction false} JoinNoLineBreak(parts: seq<string>, sep: string)
    requires forall i :: 0 <= i < |parts| ==> NoLineBreak(parts[i])
    requires NoLineBreak(sep)
    ensures NoLineBreak(Join(parts, sep))
    decreases |parts|
  {
    if |parts| > 1 {
      JoinNoLineBreak(parts[1..], sep);
    }
  }

  lemma NoLineBreakConcat(a: string, b: string)
    requires NoLineBreak(a) && NoLineBreak(b)
    ensures NoLineBreak(a + b)
  {
    forall i | |a| <= i < |a + b| ensures (a + b)[i] == b[i - |a|] {}
  }

  /** Every line of the list is free of line breaks. */
  predicate OneLineEach(lines: seq<string>)
  {
    forall i :: 0 <= i < |lines| ==> NoLineBreak(lines[i])
  }

  lemma OneLineEachConcat(a: seq<string>, b: seq<string>)
    requires OneLineEach(a) && OneLineEach(b)
    ensures OneLineEach(a + b)
  {
    forall i | 0 <= i < |a + b| ensures NoLineBreak((a + b)[i]) {
      if i >= |a| { assert (a + b)[i] == b[i - |a|]; }
    }
  }

  /** Every line feed of `s` ends a CR LF pair and every carriage return starts one. */
  predicate BreaksAreCrlf(s: string)
  {
    (forall i :: 0 <= i < |s| && s[i] == '\n' ==> 0 < i && s[i - 1] == '\r') &&
    (forall i :: 0 <= i < |s| && s[i] == '\r' ==> i + 1 < |s| && s[i + 1] == '\n')
  }

  lemma {:induction false} JoinCrlfBreaks(lines: seq<string>)
    requires forall i :: 0 <= i < |lines| ==> NoLineBreak(lines[i])
    ensures BreaksAreCrlf(Join(lines, Crlf))
    decreases |lines|
  {
    if |lines| == 1 {
      var l := lines[0];
      forall i | 0 <= i < |l| ensures l[i] != '\n' && l[i] != '\r' {
        assert l[i] in l;
      }
    } else if |lines| > 1 {
      var l, t := lines[0], Join(lines[1..], Crlf);
      JoinCrlfBreaks(lines[1..]);
      var s := l + Crlf + t;
      assert s == Join(lines, Crlf);
      forall i | 0 <= i < |s|
        ensures s[i] == '\n' ==> 0 < i && s[i - 1] == '\r'
        ensures s[i] == '\r' ==> i + 1 < |s| && s[i + 1] == '\n'
      {
        if i < |l| {
          assert s[i] == l[i] && l[i] in l;
        } else if i == |l| {
          assert s[i] == '\r' && s[i + 1] == '\n';
        } else if i == |l| + 1 {
          assert s[i] == '\n' && s[i - 1] == '\r';
        } else {
          assert s[i] == t[i - |l| - 2];
          if i == |l| + 2 {
            assert s[i] == '\n' ==> false;
          } else {
            assert s[i - 1] == t[i - |l| - 3];
          }
          if i + 1 < |s| {
            assert s[i + 1] == t[i - |l| - 1];
          }
        }
      }
    }
  }

  /** Number of lines equal to `x`. */
  function Count(lines: seq<string>, x: string): nat
    decreases |lines|
  {
    if |lines| == 0 then 0 else (if lines[0] == x then 1 else 0) + Count(lines[1..], x)
  }

  lemma {:induction false} CountConcat(a: seq<string>, b: seq<string>, x: string)
    ensures Count(a + b, x) == Count(a, x) + Count(b, x)
    decreases |a|
  {
    if |a| == 0 {
      assert a + b == b;
    } else {
      assert (a + b)[0] == a[0] && (a + b)[1..] == a[1..] + b;
      CountConcat(a[1..], b, x);
    }
  }

  /** Number of lines that start with `p`. */
  function CountPrefixed(lines: seq<string>, p: string): nat
    decreases |lines|
  {
    if |lines| == 0 then 0 else (if StartsWith(lines[0], p) then 1 else 0) + CountPrefixed(lines[1..], p)
  }

  lemma {:induction false} CountPrefixedConcat(a: seq<string>, b: seq<string>, p: string)
    ensures CountPrefixed(a + b, p) == CountPrefixed(a, p) + CountPrefixed(b, p)
    decreases |a|
  {
    if |a| == 0 {
      assert a + b == b;
    } else {
      assert (a + b)[0] == a[0] && (a + b)[1..] == a[1..] + b;
      CountPrefixedConcat(a[1..], b, p);
    }
  }

  lemma {:induction false} CountPrefixedNone(lines: seq<string>, p: string)
    requires forall i :: 0 <= i < |lines| ==> !StartsWith(lines[i], p)
    ensures CountPrefixed(lines, p) == 0
    decreases |lines|
  {
    if |lines| > 0 {
      CountPrefixedNone(lines[1..], p);
    }
  }

  lemma CountPrefixedMiddle(head: seq<string>, middle: seq<string>, tail: seq<string>, p: string)
    requires CountPrefixed(head, p) == 0 && CountPrefixed(tail, p) == 0
    ensures CountPrefixed(head + middle + tail, p) == CountPrefixed(middle, p)
  {
    CountPrefixedConcat(head, middle, p);
    CountPrefixedConcat(head + middle, tail, p);
  }

  lemma StartsWithConcat(a: string, b: string)
    ensures StartsWith(a + b, a)
  {
    assert (a + b)[..|a|] == a;
  }

  predicate EndsWith(s: string, suffix: string)
  {
    |suffix| <= |s| && s[|s| - |suffix|..] == suffix
  }

  lemma EndsWithConcat(a: string, b: string)
    ensures EndsWith(a + b, b)
  {
    assert (a + b)[|a|..] == b;
  }

  lemma JoinStartsWith(front: seq<string>, back: seq<string>, sep: string)
    requires |front| > 0 && |back| > 0
    ensures StartsWith(Join(front + back, sep), Join(front, sep) + sep)
  {
    JoinConcat(front, back, sep);
    StartsWithConcat(Join(front, sep) + sep, Join(back, sep));
  }

  lemma JoinEndsWith(front: seq<string>, back: seq<string>, sep: string)
    requires |front| > 0 && |back| > 0
    ensures EndsWith(Join(front + back, sep), sep + Join(back, sep))
  {
    var f, b := Join(front, sep), Join(back, sep);
    JoinConcat(front, back, sep);
    assert f + sep + b == f + (sep + b);
    EndsWithConcat(f, sep + b);
  }

  /** A join of at least two parts opens with the first part and a separator, and closes
      with a separator and the last part: no separator leads or trails. */
  lemma JoinFrame(parts: seq<string>, sep: string)
    requires |parts| >= 2
    ensures StartsWith(Join(parts, sep), parts[0] + sep)
    ensures EndsWith(Join(parts, sep), sep + parts[|parts| - 1])
  {
    var n := |parts|;
    assert parts == [parts[0]] + parts[1..];
    JoinStartsWith([parts[0]], parts[1..], sep);
    assert parts == parts[..n - 1] + [parts[n - 1]];
    JoinEndsWith(parts[..n - 1], [parts[n - 1]], sep);
  }

  lemma JoinThree(a: string, b: string, c: string, sep: string)
    ensures Join([a, b, c], sep) == a + sep + b + sep + c
  {
    assert [b, c][1..] == [c];
    assert Join([b, c], sep) == b + sep + c;
    assert [a, b, c][1..] == [b, c];
    assert a + sep + (b + sep + c) == a + sep + b + sep + c;
  }

  lemma JoinFive(a: string, b: string, c: string, d: string, e: string, sep: string)
    ensures Join([a, b, c, d, e], sep) == a + sep + b + sep + c + sep + d + sep + e
  {
    var t := Join([c, d, e], sep);
    JoinThree(c, d, e, sep);
    assert [b, c, d, e][1..] == [c, d, e];
    assert Join([b, c, d, e], sep) == b + sep + t;
    assert [a, b, c, d, e][1..] == [b, c, d, e];
    assert Join([a, b, c, d, e], sep) == a + sep + (b + sep + t);
  }

  /** A text differing from `p` at a position inside `p` does not start with `p`. */
  lemma DiffersAt(s: string, p: string, k: nat)
    requires k < |p| && (k >= |s| || s[k] != p[k])
    ensures !StartsWith(s, p)
  {
    if |p| <= |s| {
      assert s[..|p|][k] == s[k];
    }
  }

  predicate IsDigit(c: char)
  {
    '0' <= c <= '9'
  }

  function Digit(d: nat): (c: char)
    requires d < 10
    ensures IsDigit(c) && (c as int) - ('0' as int) == d
  {
    ('0' as int + d) as char
  }

  /** The number a string of decimal digits denotes, most significant digit first. */
  function DigitsValue(s: string): nat
    requires forall i :: 0 <= i < |s| ==> IsDigit(s[i])
    decreases |s|
  {
    if |s| == 0 then 0
    else
      assert IsDigit(s[|s| - 1]);
      DigitsValue(s[..|s| - 1]) * 10 + ((s[|s| - 1] as int) - ('0' as int))
  }

  /** Decimal text of a natural number without leading zeros, as JavaScript's template literals
      print an integer Number of magnitude below 10^21 (and at most 2^53, where it is exact). */
  function NatToDecimal(n: nat): (r: string)
    ensures |r| >= 1
    ensures forall i :: 0 <= i < |r| ==> IsDigit(r[i])
    ensures DigitsValue(r) == n
    ensures n > 0 ==> r[0] != '0'
    decreases n
  {
    if n < 10 then [Digit(n)]
    else
      var r := NatToDecimal(n / 10) + [Digit(n % 10)];
      assert r[..|r| - 1] == NatToDecimal(n / 10);
      r
  }

  /** Decimal text of an integer, with a leading `-` for negative values. */
  function IntToDecimal(i: int): (r: string)
    ensures |r| >= 1
    ensures i >= 0 ==> r == NatToDecimal(i)
    ensures i < 0 ==> r == "-" + NatToDecimal(-i)
    ensures NoLineBreak(r)
  {
    var r := if i < 0 then "-" + NatToDecimal(-i) else NatToDecimal(i);
    assert forall k :: 0 <= k < |r| ==> r[k] == '-' || IsDigit(r[k]);
    r
  }
}
