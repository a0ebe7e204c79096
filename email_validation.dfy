/** The acceptance rule for client e-mail addresses: a format check by regular expression,
    then the refusal of a short list of disposable-mail domains. */
module EmailValidation {
  import opened Text

  /** The characters JavaScript's `\s` class matches: the white space and line terminators of
      the ECMAScript grammar (tab, line feed, vertical tab, form feed, carriage return, space,
      no-break space, the Unicode space separators, line and paragraph separators, the byte
      order mark). */
  predicate IsJsWhitespace(c: char)
  {
    c == '\t' || c == '\n' || c == '\U{000B}' || c == '\U{000C}' || c == '\r' || c == ' '
    || c == '\U{00A0}' || c == '\U{1680}' || ('\U{2000}' <= c <= '\U{200A}')
    || c == '\U{2028}' || c == '\U{2029}' || c == '\U{202F}' || c == '\U{205F}' || c == '\U{3000}' || c == '\U{FEFF}'
  }

  /** A character of the class `[^\s@]`. */
  predicate Plain(c: char)
  {
    !IsJsWhitespace(c) && c != '@'
  }

  predicate AllPlain(s: string)
  {
    forall i :: 0 <= i < |s| ==> Plain(s[i])
  }

  /** The language of `[^\s@]+\.[^\s@]+`: plain characters only, with a dot that has at least
      one character on each side (the dot is itself plain, so the first part may hold dots). */
  predicate DomainPattern(d: string)
  {
    AllPlain(d) && exists k :: 0 < k < |d| - 1 && d[k] == '.'
  }

  /** The language of `^[^\s@]+@[^\s@]+\.[^\s@]+$`, without the multi-line flag: a non-empty
      plain local part, an `@`, and a domain of the shape above, spanning the whole string. */
  predicate MatchesEmailPattern(s: string)
  {
    exists at :: 0 < at < |s| && s[at] == '@' && AllPlain(s[..at]) && DomainPattern(s[at + 1..])
  }

  /** The position of the first `c` in `s`, or `|s|` when there is none. */
  function FirstIndex(s: string, c: char): (r: nat)
    ensures r <= |s|
    ensures forall i :: 0 <= i < r ==> s[i] != c
    ensures r < |s| ==> s[r] == c
    decreases |s|
  {
    if |s| == 0 then 0 else if s[0] == c then 0 else 1 + FirstIndex(s[1..], c)
  }

  /** The domain holds a dot strictly inside it. */
  predicate HasInnerDot(d: string)
  {
    |d| >= 3 && '.' in d[1..|d| - 1]
  }

  /** `validateEmail`: the regular expression test, taken apart at the first `@`. */
  function ValidateEmail(email: string): (r: bool)
    ensures r <==> MatchesEmailPattern(email)
  {
    var at := FirstIndex(email, '@');
    var ok := 0 < at < |email| && AllPlain(email[..at]) && AllPlain(email[at + 1..]) && HasInnerDot(email[at + 1..]);
    ValidateEmailMatches(email, ok);
    ok
  }

  lemma InnerDot(d: string)
    ensures HasInnerDot(d) <==> exists k :: 0 < k < |d| - 1 && d[k] == '.'
  {
    if HasInnerDot(d) {
      var j :| 0 <= j < |d| - 2 && d[1..|d| - 1][j] == '.';
      assert d[j + 1] == '.';
    }
    if k :| 0 < k < |d| - 1 && d[k] == '.' {
      assert d[1..|d| - 1][k - 1] == '.';
    }
  }

  lemma ValidateEmailMatches(email: string, ok: bool)
    requires var at := FirstIndex(email, '@');
      ok == (0 < at < |email| && AllPlain(email[..at]) && AllPlain(email[at + 1..]) && HasInnerDot(email[at + 1..]))
    ensures ok <==> MatchesEmailPattern(email)
  {
    var at := FirstIndex(email, '@');
    if ok {
      InnerDot(email[at + 1..]);
      assert DomainPattern(email[at + 1..]);
    }
    if MatchesEmailPattern(email) {
      var a :| 0 < a < |email| && email[a] == '@' && AllPlain(email[..a]) && DomainPattern(email[a + 1..]);
      forall i | 0 <= i < a ensures email[i] != '@' { assert Plain(email[..a][i]); }
      FirstIndexAt(email, '@', a);
      InnerDot(email[a + 1..]);
    }
  }

  /** Every accepted address holds exactly one `@` and no white space. */
  lemma AcceptedShape(email: string)
    requires ValidateEmail(email)
    ensures exists at :: 0 <= at < |email| && email[at] == '@'
    ensures forall i, j :: 0 <= i < |email| && 0 <= j < |email| && email[i] == '@' && email[j] == '@' ==> i == j
    ensures forall i :: 0 <= i < |email| ==> !IsJsWhitespace(email[i])
  {
    var at :| 0 < at < |email| && email[at] == '@' && AllPlain(email[..at]) && DomainPattern(email[at + 1..]);
    forall i | 0 <= i < |email| && i != at ensures Plain(email[i]) {
      if i < at { assert email[..at][i] == email[i]; } else { assert email[at + 1..][i - at - 1] == email[i]; }
    }
  }

  /** `s.split(c)` for a one-character separator: the pieces between the separators. */
  function SplitOn(s: string, c: char): (parts: seq<string>)
    ensures |parts| >= 1
    ensures forall i :: 0 <= i < |parts| ==> c !in parts[i]
    ensures Join(parts, [c]) == s
    decreases |s|
  {
    var i := FirstIndex(s, c);
    if i == |s| then
      assert s[..i] == s;
      [s]
    else
      var rest := SplitOn(s[i + 1..], c);
      assert c !in s[..i] by {
        forall j | 0 <= j < i ensures s[..i][j] != c { }
      }
      var parts := [s[..i]] + rest;
      assert parts[1..] == rest;
      assert s == s[..i] + [c] + s[i + 1..];
      parts
  }

  /** An accepted address splits at its `@` into exactly the local part and the domain. */
  lemma SplitAccepted(email: string)
    requires ValidateEmail(email)
    ensures var at := FirstIndex(email, '@');
      at < |email| && SplitOn(email, '@') == [email[..at], email[at + 1..]]
  {
    var at := FirstIndex(email, '@');
    var d := email[at + 1..];
    assert AllPlain(d);
    assert '@' !in d by {
      forall j | 0 <= j < |d| ensures d[j] != '@' { assert Plain(d[j]); }
    }
    SplitWithout(d, '@');
  }

  lemma SplitWithout(s: string, c: char)
    requires c !in s
    ensures SplitOn(s, c) == [s]
  {
  }

  lemma FirstIndexAt(s: string, c: char, a: nat)
    requires a < |s| && s[a] == c
    requires forall i :: 0 <= i < a ==> s[i] != c
    ensures FirstIndex(s, c) == a
  {
  }

  /** `toLowerCase` on the characters whose lower case is an ASCII letter: `A`–`Z` and the
      Kelvin sign; every other character is kept, since its lower case cannot be ASCII. */
  function LowerChar(c: char): char
  {
    if 'A' <= c <= 'Z' then (c as int + 32) as char
    else if c == '\U{212A}' then 'k'
    else c
  }

  function ToLower(s: string): (r: string)
  {
    seq(|s|, i requires 0 <= i < |s| => LowerChar(s[i]))
  }

  /** The domains of temporary mail services that are refused. */
  const DisposableDomains: seq<string> :=
    ["10minutemail.com", "tempmail.org", "guerrillamail.com", "mailinator.com", "yopmail.com", "temp-mail.org"]

  const FormatReason: string := "Format invalide"
  const DisposableReason: string := "Email temporaire non autorisé"

  /** The `{ isValid, reason }` object; `reason` is absent on acceptance. */
  datatype Verdict = Verdict(isValid: bool, reason: Option<string>)

  /** `validateEmailAdvanced`: the format check, then the lower-cased second piece of the
      split at `@` looked up among the disposable domains. */
  function ValidateEmailAdvanced(email: string): (r: Verdict)
    ensures !MatchesEmailPattern(email) ==> r == Verdict(false, Some(FormatReason))
    ensures MatchesEmailPattern(email) ==>
      var at := FirstIndex(email, '@');
      at < |email| && email[at] == '@' &&
      if ToLower(email[at + 1..]) in DisposableDomains then r == Verdict(false, Some(DisposableReason))
      else r == Verdict(true, None)
    ensures r.isValid <==> r.reason.None?
  {
    if !ValidateEmail(email) then Verdict(false, Some(FormatReason))
    else
      var parts := SplitOn(email, '@');
      SplitAccepted(email);
      var domain := ToLower(parts[1]);
      if domain in DisposableDomains then Verdict(false, Some(DisposableReason))
      else Verdict(true, None)
  }

  lemma LowerCharFacts(c: char)
    ensures Plain(LowerChar(c)) <==> Plain(c)
    ensures LowerChar(c) == '@' <==> c == '@'
    ensures LowerChar(c) == '.' <==> c == '.'
    ensures LowerChar(LowerChar(c)) == LowerChar(c)
  {
  }

  lemma LowerSlices(e: string, at: nat)
    requires at < |e|
    ensures ToLower(e)[..at] == ToLower(e[..at]) && ToLower(e)[at + 1..] == ToLower(e[at + 1..])
  {
  }

  lemma LowerAllPlain(s: string)
    ensures AllPlain(ToLower(s)) <==> AllPlain(s)
  {
    forall i | 0 <= i < |s| ensures Plain(ToLower(s)[i]) <==> Plain(s[i]) { LowerCharFacts(s[i]); }
  }

  lemma LowerDomain(d: string)
    ensures DomainPattern(ToLower(d)) <==> DomainPattern(d)
  {
    LowerAllPlain(d);
    var l := ToLower(d);
    if k :| 0 < k < |d| - 1 && d[k] == '.' {
      LowerCharFacts(d[k]);
      assert l[k] == '.';
    }
    if k :| 0 < k < |l| - 1 && l[k] == '.' {
      LowerCharFacts(d[k]);
      assert d[k] == '.';
    }
  }

  lemma LowerMatches(e: string)
    ensures MatchesEmailPattern(ToLower(e)) <==> MatchesEmailPattern(e)
  {
    var l := ToLower(e);
    if at :| 0 < at < |e| && e[at] == '@' && AllPlain(e[..at]) && DomainPattern(e[at + 1..]) {
      LowerSlices(e, at);
      LowerAllPlain(e[..at]);
      LowerDomain(e[at + 1..]);
      LowerCharFacts(e[at]);
      assert l[at] == '@';
    }
    if at :| 0 < at < |l| && l[at] == '@' && AllPlain(l[..at]) && DomainPattern(l[at + 1..]) {
      LowerSlices(e, at);
      LowerAllPlain(e[..at]);
      LowerDomain(e[at + 1..]);
      LowerCharFacts(e[at]);
      assert e[at] == '@';
    }
  }

  lemma LowerFirstIndex(e: string)
    requires MatchesEmailPattern(e)
    ensures FirstIndex(ToLower(e), '@') == FirstIndex(e, '@')
  {
    var at := FirstIndex(e, '@');
    var l := ToLower(e);
    assert e[at] == '@';
    LowerCharFacts(e[at]);
    forall i | 0 <= i < at ensures l[i] != '@' { LowerCharFacts(e[i]); }
    FirstIndexAt(l, '@', at);
  }

  lemma LowerIdempotent(s: string)
    ensures ToLower(ToLower(s)) == ToLower(s)
  {
    forall i | 0 <= i < |s| ensures ToLower(ToLower(s))[i] == ToLower(s)[i] { LowerCharFacts(s[i]); }
  }

  /** The verdict ignores letter case: an address and its lower-cased form get the same answer. */
  lemma VerdictIgnoresCase(email: string)
    ensures ValidateEmailAdvanced(ToLower(email)) == ValidateEmailAdvanced(email)
  {
    LowerMatches(email);
    if MatchesEmailPattern(email) {
      var l := ToLower(email);
      LowerFirstIndex(email);
      var at := FirstIndex(email, '@');
      LowerSlices(email, at);
      LowerIdempotent(email[at + 1..]);
      assert ToLower(l[at + 1..]) == ToLower(email[at + 1..]);
    }
  }

  lemma PartsOf(local: string, domain: string)
    ensures var e := local + "@" + domain;
      |e| == |local| + 1 + |domain| && e[|local|] == '@' && e[..|local|] == local && e[|local| + 1..] == domain
  {
  }

  /** An address built from a plain local part and a domain of the pattern's shape passes the
      format check, and its verdict is decided by the lower-cased domain alone. */
  lemma VerdictOfParts(local: string, domain: string)
    requires |local| > 0 && AllPlain(local) && DomainPattern(domain)
    ensures ValidateEmailAdvanced(local + "@" + domain) ==
      if ToLower(domain) in DisposableDomains then Verdict(false, Some(DisposableReason)) else Verdict(true, None)
  {
    var e := local + "@" + domain;
    PartsOf(local, domain);
    assert MatchesEmailPattern(e);
    forall i | 0 <= i < |local| ensures e[i] != '@' { assert Plain(local[i]); }
    FirstIndexAt(e, '@', |local|);
  }

  /** With no other `@` around it, a domain not of the pattern's shape fails the format check. */
  lemma FormatOfParts(local: string, domain: string)
    requires AllPlain(local) && AllPlain(domain) && !DomainPattern(domain)
    ensures ValidateEmailAdvanced(local + "@" + domain) == Verdict(false, Some(FormatReason))
  {
    var e := local + "@" + domain;
    PartsOf(local, domain);
    forall i | 0 <= i < |local| ensures e[i] != '@' { assert Plain(local[i]); }
    FirstIndexAt(e, '@', |local|);
  }

  /** A listed domain is refused whatever its letter case. */
  lemma MixedCaseDisposable()
    ensures ValidateEmailAdvanced("X@YopMail.COM") == Verdict(false, Some(DisposableReason))
  {
    assert "X@YopMail.COM" == "X" + "@" + "YopMail.COM";
    assert AllPlain("X");
    assert "YopMail.COM"[7] == '.';
    assert DomainPattern("YopMail.COM");
    assert ToLower("YopMail.COM") == "yopmail.com";
    VerdictOfParts("X", "YopMail.COM");
  }

  /** An ordinary address is accepted with no reason. The address is written as its parts: as
      one literal, the verifier evaluates the whole check on it and runs out of resources. */
  lemma OrdinaryAccepted()
    ensures ValidateEmailAdvanced("jean.dupont" + "@" + "gmail.com") == Verdict(true, None)
  {
    assert AllPlain("jean.dupont");
    assert "gmail.com"[5] == '.';
    assert DomainPattern("gmail.com");
    assert ToLower("gmail.com") == "gmail.com";
    VerdictOfParts("jean.dupont", "gmail.com");
  }

  /** A domain without a dot fails the format check. */
  lemma DotlessRejected()
    ensures ValidateEmailAdvanced("jean@localhost") == Verdict(false, Some(FormatReason))
  {
    assert "jean@localhost" == "jean" + "@" + "localhost";
    assert AllPlain("jean") && AllPlain("localhost");
    assert forall k :: 0 <= k < |"localhost"| ==> "localhost"[k] != '.';
    FormatOfParts("jean", "localhost");
  }
}
