/** Escaping of free text placed in an iCalendar property value, following the TEXT
    value type of section 3.3.11 of RFC 5545: backslash, semicolon, comma and line feed
    are escaped with a backslash, carriage returns are dropped. */
module IcsEscape {
  import opened Text

  /** `s.replace(/c/g, rep)`: every occurrence of the character `c` replaced by `rep`. */
  function ReplaceAll(s: string, c: char, rep: string): string
    decreases |s|
  {
    if |s| == 0 then "" else (if s[0] == c then rep else [s[0]]) + ReplaceAll(s[1..], c, rep)
  }

  lemma {:induction false} ReplaceAllConcat(a: string, b: string, c: char, rep: string)
    ensures ReplaceAll(a + b, c, rep) == ReplaceAll(a, c, rep) + ReplaceAll(b, c, rep)
    decreases |a|
  {
    if |a| == 0 {
      assert a + b == b;
    } else {
      assert (a + b)[0] == a[0] && (a + b)[1..] == a[1..] + b;
      ReplaceAllConcat(a[1..], b, c, rep);
    }
  }

  /** The input with its carriage returns removed: what escaping cannot give back. */
  function RemoveCr(s: string): string
  {
    ReplaceAll(s, '\r', "")
  }

  /** The chain of global replacements applied to a present value, in the source's order:
      backslashes first, so that the backslashes added afterwards are not doubled. */
  function EscapeChain(s: string): string
  {
    ReplaceAll(ReplaceAll(ReplaceAll(ReplaceAll(ReplaceAll(s, '\\', "\\\\"), ';', "\\;"), ',', "\\,"), '\n', "\\n"), '\r', "")
  }

  /** `escapeICSValue`: a missing or empty value gives the empty string, anything else the replacement chain. */
  function EscapeIcsValue(value: Option<string>): (r: string)
    ensures r == "" <==> !Truthy(value) || forall i :: 0 <= i < |value.value| ==> value.value[i] == '\r'
    ensures WellEscaped(r)
    ensures NoLineBreak(r)
    ensures forall i :: 0 <= i < |r| && (r[i] == ';' || r[i] == ',') ==> 0 < i && r[i - 1] == '\\'
    ensures Truthy(value) ==> Unescape(r) == RemoveCr(value.value)
  {
    if !Truthy(value) then ""
    else
      var s := value.value;
      EscapeChainIsOnePass(s);
      EscapedIsEmpty(s);
      EscapedIsWellEscaped(s);
      WellEscapedHasNoLineBreak(Escaped(s));
      WellEscapedSeparators(Escaped(s));
      UnescapeEscaped(s);
      EscapeChain(s)
  }

  /** Reference definition: the escape of one character. */
  function EscapeChar(c: char): string
  {
    if c == '\\' then "\\\\"
    else if c == ';' then "\\;"
    else if c == ',' then "\\,"
    else if c == '\n' then "\\n"
    else if c == '\r' then ""
    else [c]
  }

  /** Reference definition: escaping character by character in a single pass. */
  function Escaped(s: string): string
    decreases |s|
  {
    if |s| == 0 then "" else EscapeChar(s[0]) + Escaped(s[1..])
  }

  lemma {:induction false} EscapeChainConcat(a: string, b: string)
    ensures EscapeChain(a + b) == EscapeChain(a) + EscapeChain(b)
  {
    var s1a, s1b := ReplaceAll(a, '\\', "\\\\"), ReplaceAll(b, '\\', "\\\\");
    ReplaceAllConcat(a, b, '\\', "\\\\");
    var s2a, s2b := ReplaceAll(s1a, ';', "\\;"), ReplaceAll(s1b, ';', "\\;");
    ReplaceAllConcat(s1a, s1b, ';', "\\;");
    var s3a, s3b := ReplaceAll(s2a, ',', "\\,"), ReplaceAll(s2b, ',', "\\,");
    ReplaceAllConcat(s2a, s2b, ',', "\\,");
    var s4a, s4b := ReplaceAll(s3a, '\n', "\\n"), ReplaceAll(s3b, '\n', "\\n");
    ReplaceAllConcat(s3a, s3b, '\n', "\\n");
    ReplaceAllConcat(s4a, s4b, '\r', "");
  }

  lemma ReplaceAllOne(c: char, x: char, rep: string)
    ensures ReplaceAll([c], x, rep) == if c == x then rep else [c]
  {
    assert [c][1..] == [];
  }

  lemma ReplaceAllPair(c: char, d: char, x: char, rep: string)
    ensures ReplaceAll([c, d], x, rep) == (if c == x then rep else [c]) + (if d == x then rep else [d])
  {
    assert [c, d][1..] == [d];
    ReplaceAllOne(d, x, rep);
  }

  lemma EscapeChainChar(c: char)
    ensures EscapeChain([c]) == EscapeChar(c)
  {
    ReplaceAllOne(c, '\\', "\\\\");
    if c == '\\' {
      ReplaceAllPair('\\', '\\', ';', "\\;");
      ReplaceAllPair('\\', '\\', ',', "\\,");
      ReplaceAllPair('\\', '\\', '\n', "\\n");
      ReplaceAllPair('\\', '\\', '\r', "");
    } else {
      ReplaceAllOne(c, ';', "\\;");
      if c == ';' {
        ReplaceAllPair('\\', ';', ',', "\\,");
        ReplaceAllPair('\\', ';', '\n', "\\n");
        ReplaceAllPair('\\', ';', '\r', "");
      } else {
        ReplaceAllOne(c, ',', "\\,");
        if c == ',' {
          ReplaceAllPair('\\', ',', '\n', "\\n");
          ReplaceAllPair('\\', ',', '\r', "");
        } else {
          ReplaceAllOne(c, '\n', "\\n");
          if c == '\n' {
            ReplaceAllPair('\\', 'n', '\r', "");
          } else {
            ReplaceAllOne(c, '\r', "");
          }
        }
      }
    }
  }

  /** The source's replacement chain and the single-pass reference definition agree on every input. */
  lemma {:induction false} EscapeChainIsOnePass(s: string)
    ensures EscapeChain(s) == Escaped(s)
    decreases |s|
  {
    if |s| == 0 {
      assert EscapeChain(s) == "";
    } else {
      assert s == [s[0]] + s[1..];
      EscapeChainConcat([s[0]], s[1..]);
      EscapeChainChar(s[0]);
      EscapeChainIsOnePass(s[1..]);
    }
  }

  lemma {:induction false} EscapedIsEmpty(s: string)
    ensures Escaped(s) == "" <==> forall i :: 0 <= i < |s| ==> s[i] == '\r'
    decreases |s|
  {
    if |s| > 0 {
      EscapedIsEmpty(s[1..]);
      if s[0] == '\r' {
        forall i | 0 < i < |s| ensures s[i] == s[1..][i - 1] {}
      } else {
        assert |EscapeChar(s[0])| > 0;
      }
    }
  }

  /** The characters a backslash may escape in the output. */
  predicate EscapeCode(c: char)
  {
    c == '\\' || c == ';' || c == ',' || c == 'n'
  }

  function Decoded(c: char): char
  {
    if c == 'n' then '\n' else c
  }

  /** Text as escaping produces it: no carriage return or line feed, and every backslash,
      semicolon and comma belongs to a backslash pair `\\`, `\;`, `\,` or `\n`. */
  predicate WellEscaped(t: string)
    decreases |t|
  {
    if |t| == 0 then true
    else if t[0] == '\\' then |t| >= 2 && EscapeCode(t[1]) && WellEscaped(t[2..])
    else t[0] != ';' && t[0] != ',' && t[0] != '\r' && t[0] != '\n' && WellEscaped(t[1..])
  }

  /** The matching unescape: each backslash pair decodes to the character it stands for. */
  function Unescape(t: string): string
    decreases |t|
  {
    if |t| == 0 then ""
    else if |t| >= 2 && t[0] == '\\' && EscapeCode(t[1]) then [Decoded(t[1])] + Unescape(t[2..])
    else [t[0]] + Unescape(t[1..])
  }

  lemma {:induction false} EscapedIsWellEscaped(s: string)
    ensures WellEscaped(Escaped(s))
    decreases |s|
  {
    if |s| > 0 {
      var c, rest := s[0], Escaped(s[1..]);
      EscapedIsWellEscaped(s[1..]);
      var t := EscapeChar(c) + rest;
      if |EscapeChar(c)| == 2 {
        assert t[2..] == rest;
      } else if |EscapeChar(c)| == 1 {
        assert t[1..] == rest;
      } else {
        assert t == rest;
      }
    }
  }

  /** Unescaping undoes escaping, up to the carriage returns that escaping drops. */
  lemma {:induction false} UnescapeEscaped(s: string)
    ensures Unescape(Escaped(s)) == RemoveCr(s)
    decreases |s|
  {
    if |s| > 0 {
      var c, rest := s[0], Escaped(s[1..]);
      UnescapeEscaped(s[1..]);
      var t := EscapeChar(c) + rest;
      if |EscapeChar(c)| == 2 {
        assert t[2..] == rest;
      } else if |EscapeChar(c)| == 1 {
        assert t[1..] == rest;
      } else {
        assert t == rest;
      }
    }
  }

  /** Escaping is onto the well-escaped texts: escaping the unescape of one gives it back. */
  lemma {:induction false} EscapeUnescaped(t: string)
    requires WellEscaped(t)
    ensures Escaped(Unescape(t)) == t
    decreases |t|
  {
    if |t| > 0 {
      if t[0] == '\\' {
        EscapeUnescaped(t[2..]);
        var u := [Decoded(t[1])] + Unescape(t[2..]);
        assert u[0] == Decoded(t[1]) && u[1..] == Unescape(t[2..]);
        assert t == [t[0], t[1]] + t[2..];
      } else {
        EscapeUnescaped(t[1..]);
        var u := [t[0]] + Unescape(t[1..]);
        assert u[0] == t[0] && u[1..] == Unescape(t[1..]);
        assert t == [t[0]] + t[1..];
      }
    }
  }

  lemma {:induction false} WellEscapedHasNoLineBreak(t: string)
    requires WellEscaped(t)
    ensures NoLineBreak(t)
    decreases |t|
  {
    if |t| > 0 {
      if t[0] == '\\' {
        WellEscapedHasNoLineBreak(t[2..]);
        assert t == [t[0], t[1]] + t[2..];
      } else {
        WellEscapedHasNoLineBreak(t[1..]);
        assert t == [t[0]] + t[1..];
      }
    }
  }

  lemma {:induction false} WellEscapedSeparators(t: string)
    requires WellEscaped(t)
    ensures forall i :: 0 <= i < |t| && (t[i] == ';' || t[i] == ',') ==> 0 < i && t[i - 1] == '\\'
    decreases |t|
  {
    if |t| > 0 {
      if t[0] == '\\' {
        var rest := t[2..];
        WellEscapedSeparators(rest);
      } else {
        var rest := t[1..];
        WellEscapedSeparators(rest);
      }
    }
  }
}
