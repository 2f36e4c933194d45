/**
 * The Python `str` operations the core relies on, on `seq<char>`:
 * `strip()`, `lower()`, `isdigit()`, `int(s)`, `str(n)`, `s.split(sep)[-1]`
 * and `startswith`. Digits are ASCII decimal digits only.
 */
module PyStr {

  /** `c.isspace()`: the characters Python's `str.strip()` removes. */
  predicate IsSpace(c: char): (r: bool)
    ensures c == ' ' || '\t' <= c <= '\r' ==> r
    ensures IsDigit(c) || 'a' <= c <= 'z' || 'A' <= c <= 'Z' || c == '-' ==> !r
  {
    || ('\t' <= c <= '\r')
    || ('\U{1c}' <= c <= '\U{1f}')
    || c == ' ' || c == '\U{85}' || c == '\U{a0}' || c == '\U{1680}'
    || ('\U{2000}' <= c <= '\U{200a}')
    || c == '\U{2028}' || c == '\U{2029}' || c == '\U{202f}' || c == '\U{205f}' || c == '\U{3000}'
  }

  /** `s.lstrip()`: drops leading whitespace and nothing else. */
  function TrimStart(s: string): (r: string)
    ensures r == [] || !IsSpace(r[0])
    ensures |r| <= |s| && r == s[|s| - |r|..]
    ensures forall i :: 0 <= i < |s| - |r| ==> IsSpace(s[i])
  {
    if |s| > 0 && IsSpace(s[0]) then TrimStart(s[1..]) else s
  }

  /** `s.rstrip()`: drops trailing whitespace and nothing else. */
  function TrimEnd(s: string): (r: string)
    ensures r == [] || !IsSpace(r[|r| - 1])
    ensures |r| <= |s| && r == s[..|r|]
    ensures forall i :: |r| <= i < |s| ==> IsSpace(s[i])
  {
    if |s| > 0 && IsSpace(s[|s| - 1]) then TrimEnd(s[..|s| - 1]) else s
  }

  /** `s.strip()`: `s` with its leading and trailing whitespace removed, and nothing else. */
  function Strip(s: string): (r: string)
    ensures r == [] || (!IsSpace(r[0]) && !IsSpace(r[|r| - 1]))
    ensures exists lead, trail :: s == lead + r + trail && AllSpace(lead) && AllSpace(trail)
  {
    StripParts(s);
    TrimEnd(TrimStart(s))
  }

  /** `TrimEnd(TrimStart(s))` is `s` less a whitespace head and a whitespace tail. */
  lemma StripParts(s: string)
    ensures exists lead, trail :: s == lead + TrimEnd(TrimStart(s)) + trail && AllSpace(lead) && AllSpace(trail)
  {
    var lead := TrimStartParts(s);
    var trail := TrimEndParts(TrimStart(s));
    Framed(s, lead, TrimStart(s), TrimEnd(TrimStart(s)), trail);
  }

  /** Whitespace before `t` and whitespace after `r` frame `r` in `s`. */
  lemma Framed(s: string, lead: string, t: string, r: string, trail: string)
    requires s == lead + t && t == r + trail && AllSpace(lead) && AllSpace(trail)
    ensures exists l, tr :: s == l + r + tr && AllSpace(l) && AllSpace(tr)
  {
    assert s == lead + r + trail;
  }

  /** Every character of `x` is whitespace. */
  ghost predicate AllSpace(x: string) {
    forall k :: 0 <= k < |x| ==> IsSpace(x[k])
  }

  /** `s` is the whitespace `lstrip()` drops followed by what it keeps. */
  lemma TrimStartParts(s: string) returns (lead: string)
    ensures s == lead + TrimStart(s) && AllSpace(lead)
  {
    var t := TrimStart(s);
    var n := |s| - |t|;
    SpacePrefix(s, n);
    lead := s[..n];
  }

  /** A prefix made of whitespace, split off. */
  lemma SpacePrefix(s: string, n: nat)
    requires n <= |s| && forall i :: 0 <= i < n ==> IsSpace(s[i])
    ensures s == s[..n] + s[n..] && AllSpace(s[..n])
  {
    assert forall k :: 0 <= k < n ==> s[..n][k] == s[k];
  }

  /** `t` is what `rstrip()` keeps followed by the whitespace it drops. */
  lemma TrimEndParts(t: string) returns (trail: string)
    ensures t == TrimEnd(t) + trail && AllSpace(trail)
  {
    var r := TrimEnd(t);
    SpaceSuffix(t, |r|);
    trail := t[|r|..];
  }

  /** A suffix made of whitespace, split off. */
  lemma SpaceSuffix(s: string, n: nat)
    requires n <= |s| && forall i :: n <= i < |s| ==> IsSpace(s[i])
    ensures s == s[..n] + s[n..] && AllSpace(s[n..])
  {
    assert forall k :: 0 <= k < |s| - n ==> s[n..][k] == s[n + k];
  }

  /** A string that neither starts nor ends with whitespace is its own `strip()`. */
  lemma StripUnchanged(s: string)
    requires s == [] || (!IsSpace(s[0]) && !IsSpace(s[|s| - 1]))
    ensures Strip(s) == s
  {
  }

  /** `strip()` is idempotent. */
  lemma StripIdempotent(s: string)
    ensures Strip(Strip(s)) == Strip(s)
  {
    StripUnchanged(Strip(s));
  }

  /** `c.lower()` for ASCII letters; every other character is left as it is. */
  function LowerChar(c: char): (r: char)
    ensures 'A' <= c <= 'Z' ==> 'a' <= r <= 'z' && r as int == c as int + 32
    ensures !('A' <= c <= 'Z') ==> r == c
  {
    if 'A' <= c <= 'Z' then (c as int + 32) as char else c
  }

  /** `s.lower()`, character by character. */
  function Lower(s: string): (r: string)
    ensures |r| == |s|
    ensures forall i :: 0 <= i < |s| ==> r[i] == LowerChar(s[i])
  {
    seq(|s|, i requires 0 <= i < |s| => LowerChar(s[i]))
  }

  /** The characters that lower-case to the lower-case ASCII letter `l` are `l` and its capital. */
  lemma LowerCharOfLetter(c: char, l: char)
    requires 'a' <= l <= 'z'
    ensures LowerChar(c) == l <==> (c == l || c as int == l as int - 32)
  {
  }

  /** `s` spells `t` in some mix of upper and lower case, `t` being lower-case ASCII letters. */
  ghost predicate IsCasingOf(s: string, t: string)
  {
    |s| == |t| && forall i :: 0 <= i < |s| ==> s[i] == t[i] || s[i] as int == t[i] as int - 32
  }

  /** Comparing `s.lower()` with a lower-case word is a case-insensitive comparison. */
  lemma {:induction false} LowerEqualsIffCasing(s: string, t: string)
    requires forall i :: 0 <= i < |t| ==> 'a' <= t[i] <= 'z'
    ensures Lower(s) == t <==> IsCasingOf(s, t)
  {
    if |s| == |t| {
      forall i | 0 <= i < |s|
        ensures LowerChar(s[i]) == t[i] <==> (s[i] == t[i] || s[i] as int == t[i] as int - 32)
      {
        LowerCharOfLetter(s[i], t[i]);
      }
      if IsCasingOf(s, t) {
        assert forall i :: 0 <= i < |s| ==> Lower(s)[i] == t[i];
      }
    }
  }

  predicate IsDigit(c: char) {
    '0' <= c <= '9'
  }

  predicate AllDigits(s: string) {
    forall i :: 0 <= i < |s| ==> IsDigit(s[i])
  }

  /** No character of `s` is whitespace. */
  ghost predicate NoSpace(s: string) {
    forall i :: 0 <= i < |s| ==> !IsSpace(s[i])
  }

  /** `s.isdigit()` restricted to ASCII digits: false for the empty string. */
  predicate IsDigits(s: string): (r: bool)
    ensures r ==> s != [] && '-' !in s && NoSpace(s)
  {
    |s| > 0 && AllDigits(s)
  }

  function DigitValue(c: char): (d: nat)
    requires IsDigit(c)
    ensures d < 10
  {
    c as int - '0' as int
  }

  function DigitChar(d: nat): (c: char)
    requires d < 10
    ensures IsDigit(c) && DigitValue(c) == d
  {
    ('0' as int + d) as char
  }

  /** `int(s)` for a string of decimal digits; leading zeros are allowed, as in Python. */
  function DecimalValue(s: string): (r: nat)
    requires AllDigits(s)
    ensures s != [] && s[0] == '0' ==> r == DecimalValue(s[1..])
  {
    if |s| == 0 then 0
    else
      var init := s[..|s| - 1];
      assert |s| >= 2 ==> s[1..][..|s| - 2] == init[1..];
      DecimalValue(init) * 10 + DigitValue(s[|s| - 1])
  }

  /** `str(n)` for a natural number: its decimal digits, without leading zeros. */
  function NatToString(n: nat): (r: string)
    ensures IsDigits(r)
    ensures r[0] != '0' || r == "0"
  {
    if n < 10 then [DigitChar(n)] else NatToString(n / 10) + [DigitChar(n % 10)]
  }

  /** `int(str(n)) == n`. */
  lemma {:induction false} DecimalValueOfNatToString(n: nat)
    ensures DecimalValue(NatToString(n)) == n
  {
    if n >= 10 {
      var s := NatToString(n);
      assert s[..|s| - 1] == NatToString(n / 10);
      DecimalValueOfNatToString(n / 10);
    }
  }

  /** `s.split(sep)[-1]`: the part of `s` after its last `sep`, or all of `s` when it has none. */
  function LastSegment(s: string, sep: char): (r: string)
    ensures sep !in r
    ensures |r| <= |s| && r == s[|s| - |r|..]
    ensures |r| == |s| || s[|s| - |r| - 1] == sep
  {
    if |s| == 0 then ""
    else if s[|s| - 1] == sep then ""
    else LastSegment(s[..|s| - 1], sep) + [s[|s| - 1]]
  }

  /** The last segment of `p + [sep] + d` is `d` whenever `d` holds no separator. */
  lemma {:induction false} LastSegmentAfterSeparator(p: string, sep: char, d: string)
    requires sep !in d
    ensures LastSegment(p + [sep] + d, sep) == d
  {
    if d != [] {
      var s := p + [sep] + d;
      assert s[..|s| - 1] == p + [sep] + d[..|d| - 1];
      LastSegmentAfterSeparator(p, sep, d[..|d| - 1]);
      assert d == d[..|d| - 1] + [d[|d| - 1]];
    }
  }

  /** `s.startswith(prefix)`: `s` is `prefix` followed by something. */
  predicate StartsWith(s: string, prefix: string): (r: bool)
    ensures r <==> exists t :: s == prefix + t
  {
    assert |prefix| <= |s| && s[..|prefix|] == prefix ==> s == prefix + s[|prefix|..];
    |prefix| <= |s| && s[..|prefix|] == prefix
  }
}
