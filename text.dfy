/**
 * The string operations the core relies on: Python's `str.strip()` (used on
 * the admin-key header), Python's `str(int)` (used by the path converters and
 * by `url_for`), and reading a decimal path segment back as an integer.
 */
module Text {
  import opened Wrappers

  /**
   * Python's `str.isspace()` for one character: the characters the `str.strip()`
   * with no argument removes.
   */
  predicate IsSpace(c: char) {
    || ('\U{9}' <= c <= '\U{D}')
    || ('\U{1C}' <= c <= '\U{20}')
    || c == '\U{85}' || c == '\U{A0}' || c == '\U{1680}'
    || ('\U{2000}' <= c <= '\U{200A}')
    || c == '\U{2028}' || c == '\U{2029}' || c == '\U{202F}' || c == '\U{205F}' || c == '\U{3000}'
  }

  /**
   * The whitespace operations take the set of characters to remove as a
   * predicate `space`, as `str.strip(chars)` does; `str.strip()` with no
   * argument is `Strip(IsSpace, s)`.
   */
  predicate AllSpace(space: char -> bool, s: string) {
    forall i :: 0 <= i < |s| ==> space(s[i])
  }

  /** The number of whitespace characters `s` starts with. */
  function LeadingSpaces(space: char -> bool, s: string): (k: nat)
    ensures k <= |s|
    ensures forall i :: 0 <= i < k ==> space(s[i])
    ensures k < |s| ==> !space(s[k])
  {
    if |s| > 0 && space(s[0]) then 1 + LeadingSpaces(space, s[1..]) else 0
  }

  /** The number of whitespace characters `s` ends with. */
  function TrailingSpaces(space: char -> bool, s: string): (k: nat)
    ensures k <= |s|
    ensures forall i :: |s| - k <= i < |s| ==> space(s[i])
    ensures k < |s| ==> !space(s[|s| - k - 1])
  {
    if |s| > 0 && space(s[|s| - 1]) then 1 + TrailingSpaces(space, s[..|s| - 1]) else 0
  }

  /** A run of leading whitespace that stops at a non-space character (or the end) is the whole run. */
  lemma LeadingSpacesIs(space: char -> bool, s: string, k: nat)
    requires k <= |s| && (forall i :: 0 <= i < k ==> space(s[i])) && (k < |s| ==> !space(s[k]))
    ensures LeadingSpaces(space, s) == k
  {
  }

  lemma TrailingSpacesIs(space: char -> bool, s: string, k: nat)
    requires k <= |s| && (forall i :: |s| - k <= i < |s| ==> space(s[i])) && (k < |s| ==> !space(s[|s| - k - 1]))
    ensures TrailingSpaces(space, s) == k
  {
  }

  /**
   * `s.strip(chars)`: `s` without its leading and trailing whitespace
   * (`lstrip` then `rstrip`); it neither starts nor ends with whitespace.
   */
  function Strip(space: char -> bool, s: string): (r: string)
    ensures |r| <= |s|
    ensures r == [] || (!space(r[0]) && !space(r[|r| - 1]))
  {
    var t := s[LeadingSpaces(space, s)..];
    t[..|t| - TrailingSpaces(space, t)]
  }

  /** Input side of `strip`: `s` is whitespace, then its `strip()`, then whitespace. */
  lemma StripSplit(space: char -> bool, s: string) returns (p: string, r: string, q: string)
    ensures s == p + r + q && r == Strip(space, s) && AllSpace(space, p) && AllSpace(space, q)
  {
    var a := LeadingSpaces(space, s);
    var t := s[a..];
    var c := TrailingSpaces(space, t);
    p, r, q := s[..a], t[..|t| - c], t[|t| - c..];
    LeadingRun(space, s);
    TrailingRun(space, t);
    SplitAt(t, |t| - c);
    SplitAt(s, a);
    ConcatAssoc(p, r, q);
  }

  /** Concatenation is associative. */
  lemma ConcatAssoc(a: string, b: string, c: string)
    ensures a + b + c == a + (b + c)
  {
  }

  lemma LeadingRun(space: char -> bool, s: string)
    ensures AllSpace(space, s[..LeadingSpaces(space, s)])
  {
  }

  lemma TrailingRun(space: char -> bool, s: string)
    ensures AllSpace(space, s[|s| - TrailingSpaces(space, s)..])
  {
  }

  /** A string is its prefix followed by the rest. */
  lemma SplitAt(s: string, k: nat)
    requires k <= |s|
    ensures s == s[..k] + s[k..]
  {
  }

  /**
   * `strip()` has one possible result: whenever `s` is whitespace, then a
   * part that neither starts nor ends with whitespace, then whitespace,
   * `strip()` returns that part.
   */
  lemma StripUnique(space: char -> bool, s: string, p: string, m: string, q: string)
    requires s == p + m + q && AllSpace(space, p) && AllSpace(space, q)
    requires m == [] || (!space(m[0]) && !space(m[|m| - 1]))
    ensures Strip(space, s) == m
  {
    if m == [] {
      assert forall i :: 0 <= i < |s| ==> (if i < |p| then s[i] == p[i] else s[i] == q[i - |p|]);
      LeadingSpacesIs(space, s, |s|);
    } else {
      assert forall i :: 0 <= i < |p| ==> s[i] == p[i];
      assert s[|p|] == m[0];
      LeadingSpacesIs(space, s, |p|);
      var t := s[|p|..];
      assert t == m + q;
      assert forall i :: |t| - |q| <= i < |t| ==> t[i] == q[i - |m|];
      assert t[|t| - |q| - 1] == m[|m| - 1];
      TrailingSpacesIs(space, t, |q|);
      assert t[..|t| - |q|] == m;
    }
  }

  lemma AllSpaceConcat(space: char -> bool, a: string, b: string)
    requires AllSpace(space, a) && AllSpace(space, b)
    ensures AllSpace(space, a + b)
  {
    assert forall i :: 0 <= i < |a + b| ==> (a + b)[i] == if i < |a| then a[i] else b[i - |a|];
  }

  /** Whitespace added on either side does not change what `strip()` returns. */
  lemma StripPadded(space: char -> bool, ws1: string, s: string, ws2: string)
    requires AllSpace(space, ws1) && AllSpace(space, ws2)
    ensures Strip(space, ws1 + s + ws2) == Strip(space, s)
  {
    var p, r, q := StripSplit(space, s);
    AllSpaceConcat(space, ws1, p);
    AllSpaceConcat(space, q, ws2);
    calc {
      ws1 + s + ws2;
      ws1 + (p + r + q) + ws2;
      { ConcatAssoc(ws1, p + r, q); ConcatAssoc(ws1, p, r); }
      ws1 + p + r + q + ws2;
      { ConcatAssoc(ws1 + p + r, q, ws2); }
      (ws1 + p) + r + (q + ws2);
    }
    StripUnique(space, ws1 + s + ws2, ws1 + p, r, q + ws2);
  }

  /** A string that neither starts nor ends with whitespace is its own `strip()`. */
  lemma StripTrimmed(space: char -> bool, s: string)
    requires s == [] || (!space(s[0]) && !space(s[|s| - 1]))
    ensures Strip(space, s) == s
  {
    assert s == [] + s + [];
    StripUnique(space, s, [], s, []);
  }

  /** `strip()` is idempotent. */
  lemma StripIdempotent(space: char -> bool, s: string)
    ensures Strip(space, Strip(space, s)) == Strip(space, s)
  {
    StripTrimmed(space, Strip(space, s));
  }

  // ---- decimal numerals ----

  predicate IsDigit(c: char) {
    '0' <= c <= '9'
  }

  predicate AllDigits(s: string) {
    forall i :: 0 <= i < |s| ==> IsDigit(s[i])
  }

  function DigitChar(d: nat): (c: char)
    requires d < 10
    ensures IsDigit(c) && c as int - '0' as int == d
  {
    ('0' as int + d) as char
  }

  /** The decimal digits of `n`, most significant first, with no leading zero. */
  function NatDigits(n: nat): (r: string)
    ensures |r| > 0 && AllDigits(r)
    ensures r[0] == '0' ==> n == 0 && r == "0"
  {
    if n < 10 then [DigitChar(n)] else NatDigits(n / 10) + [DigitChar(n % 10)]
  }

  /** Python's `str(n)` for an integer. */
  function DecimalString(n: int): (r: string)
    ensures n >= 0 ==> r == NatDigits(n)
    ensures n < 0 ==> r == "-" + NatDigits(-n)
  {
    if n < 0 then "-" + NatDigits(-n) else NatDigits(n)
  }

  /** The number a string of decimal digits denotes (leading zeros allowed). */
  function DigitsValue(s: string): nat
    requires AllDigits(s)
  {
    if |s| == 0 then 0 else 10 * DigitsValue(s[..|s| - 1]) + (s[|s| - 1] as int - '0' as int)
  }

  /**
   * A path segment read as an integer key: an optional minus sign and at
   * least one digit. Anything else is read as no key here; the database's
   * own numeric coercion of text such as `+7` or `7.0` is left to the
   * column-affinity line of the README.
   */
  function ParseInteger(s: string): (r: Option<int>)
    ensures r.Some? ==> (AllDigits(s) && s != []) || (|s| > 1 && s[0] == '-' && AllDigits(s[1..]))
    ensures AllDigits(s) && s != [] ==> r == Some(DigitsValue(s))
  {
    if s != [] && AllDigits(s) then Some(DigitsValue(s))
    else if |s| > 1 && s[0] == '-' && AllDigits(s[1..]) then Some(0 - DigitsValue(s[1..]))
    else None
  }

  lemma {:induction false} NatDigitsValue(n: nat)
    ensures DigitsValue(NatDigits(n)) == n
  {
    var r := NatDigits(n);
    if n >= 10 {
      NatDigitsValue(n / 10);
      assert r[..|r| - 1] == NatDigits(n / 10);
    }
  }

  /** Reading back `str(n)` gives `n`: the converters' `to_url` and `to_python` agree. */
  lemma DecimalRoundTrip(n: int)
    ensures ParseInteger(DecimalString(n)) == Some(n)
  {
    NatDigitsValue(if n < 0 then -n else n);
    if n < 0 {
      var d := NatDigits(-n);
      var s := "-" + d;
      assert s[0] == '-' && s[1..] == d;
      assert !AllDigits(s) by {
        assert !IsDigit(s[0]);
      }
    }
  }

  /** Distinct integers print differently, so distinct ids give distinct paths. */
  lemma DecimalStringInjective(a: int, b: int)
    requires DecimalString(a) == DecimalString(b)
    ensures a == b
  {
    DecimalRoundTrip(a);
    DecimalRoundTrip(b);
  }
}
