/**
 * The few JavaScript string operations the chat core depends on:
 * `String.prototype.trim`, `substring(0, n)` and the decimal rendering of a
 * millisecond timestamp inside a template literal.
 */
module JsString {

  /**
   * The code points ECMAScript's `trim` strips: the WhiteSpace production
   * (tab, vertical tab, form feed, space, no-break space, byte order mark and
   * the Unicode space separators) and the LineTerminator production (line feed,
   * carriage return, line and paragraph separators).
   */
  predicate IsWhiteSpace(c: char)
  {
    || c == '\t' || c == '\n' || c == '\U{B}' || c == '\U{C}' || c == '\r' || c == ' '
    || c == '\U{A0}' || c == '\U{1680}' || ('\U{2000}' <= c <= '\U{200A}')
    || c == '\U{2028}' || c == '\U{2029}' || c == '\U{202F}' || c == '\U{205F}'
    || c == '\U{3000}' || c == '\U{FEFF}'
  }

  predicate AllWhiteSpace(s: string)
  {
    forall i :: 0 <= i < |s| ==> IsWhiteSpace(s[i])
  }

  /** Drops leading white space: the result is the suffix of `s` starting at its first other character. */
  function TrimStart(s: string): (r: string)
    ensures |r| <= |s| && r == s[|s| - |r|..]
    ensures AllWhiteSpace(s[..|s| - |r|])
    ensures |r| > 0 ==> !IsWhiteSpace(r[0])
    decreases |s|
  {
    if |s| > 0 && IsWhiteSpace(s[0]) then TrimStart(s[1..]) else s
  }

  /** Drops trailing white space: the result is the prefix of `s` ending at its last other character. */
  function TrimEnd(s: string): (r: string)
    ensures |r| <= |s| && r == s[..|r|]
    ensures AllWhiteSpace(s[|r|..])
    ensures |r| > 0 ==> !IsWhiteSpace(r[|r| - 1])
    decreases |s|
  {
    if |s| > 0 && IsWhiteSpace(s[|s| - 1]) then TrimEnd(s[..|s| - 1]) else s
  }

  /** `r` occurs in `s` starting at position `k`. */
  predicate SliceAt(r: string, s: string, k: int)
  {
    0 <= k <= |s| - |r| && s[k..k + |r|] == r
  }

  /** `r` occurs in `s` at position `k` with only white space before and after it. */
  predicate TrimmedAt(r: string, s: string, k: int)
  {
    SliceAt(r, s, k) && AllWhiteSpace(s[..k]) && AllWhiteSpace(s[k + |r|..])
  }

  /**
   * `s.trim()`: the slice of `s` left after removing white space at both
   * ends, with neither of its own ends white space, and
   * empty exactly when every character of `s` is white space.
   */
  function Trim(s: string): (r: string)
    ensures |r| <= |s|
    ensures exists k :: TrimmedAt(r, s, k)
    ensures r == [] <==> AllWhiteSpace(s)
    ensures |r| > 0 ==> !IsWhiteSpace(r[0]) && !IsWhiteSpace(r[|r| - 1])
  {
    var t := TrimStart(s);
    var r := TrimEnd(t);
    TrimFramed(s, t, r);
    assert r == [] ==> AllWhiteSpace(s) by {
      if r == [] {
        WhiteSpaceOnBothSides(s, |s| - |t|);
      }
    }
    assert AllWhiteSpace(s) ==> r == [] by {
      if AllWhiteSpace(s) {
        AllWhiteSpaceTrimsToEmpty(s, t);
      }
    }
    r
  }

  /**
   * A suffix `t` of `s` preceded by white space, and a prefix `r` of `t`
   * followed by white space, make `r` a slice of `s` framed by white space.
   */
  lemma TrimFramed(s: string, t: string, r: string)
    requires |t| <= |s| && t == s[|s| - |t|..] && AllWhiteSpace(s[..|s| - |t|])
    requires |r| <= |t| && r == t[..|r|] && AllWhiteSpace(t[|r|..])
    ensures TrimmedAt(r, s, |s| - |t|)
  {
    var k := |s| - |t|;
    assert s[k..k + |r|] == t[..|r|];
    assert s[k + |r|..] == t[|r|..];
  }

  lemma WhiteSpaceOnBothSides(s: string, k: nat)
    requires k <= |s| && AllWhiteSpace(s[..k]) && AllWhiteSpace(s[k..])
    ensures AllWhiteSpace(s)
  {
    forall i | 0 <= i < |s| ensures IsWhiteSpace(s[i]) {
      if i < k {
        assert s[i] == s[..k][i];
      } else {
        assert s[i] == s[k..][i - k];
      }
    }
  }

  lemma AllWhiteSpaceTrimsToEmpty(s: string, t: string)
    requires AllWhiteSpace(s) && t == TrimStart(s)
    ensures t == [] && TrimEnd(t) == []
  {
  }

  /** `!text.trim()`: the text is empty once trimmed. */
  predicate IsBlank(s: string): (b: bool)
    ensures b <==> AllWhiteSpace(s)
  {
    Trim(s) == []
  }

  /**
   * `s.substring(0, n)`: the first `n` characters, or all of `s` when it is
   * shorter (the end index is clamped to the length).
   */
  function Prefix(s: string, n: nat): (r: string)
    ensures |r| == if n <= |s| then n else |s|
    ensures r <= s
  {
    if n <= |s| then s[..n] else s
  }

  /** The decimal digit character for 0 <= d < 10. */
  function DigitChar(d: nat): (c: char)
    requires d < 10
    ensures '0' <= c <= '9'
  {
    ['0', '1', '2', '3', '4', '5', '6', '7', '8', '9'][d]
  }

  function DigitValue(c: char): (d: nat)
    requires '0' <= c <= '9'
    ensures d < 10
  {
    (c as int - '0' as int) as nat
  }

  lemma DigitRoundTrip(d: nat)
    requires d < 10
    ensures DigitValue(DigitChar(d)) == d
  {
  }

  predicate AllDigits(s: string)
  {
    forall i :: 0 <= i < |s| ==> '0' <= s[i] <= '9'
  }

  /** The template-literal rendering of a non-negative integer: decimal, no leading zero. */
  function Decimal(n: nat): (r: string)
    ensures |r| > 0 && AllDigits(r)
    ensures r[0] == '0' ==> n == 0
    decreases n
  {
    if n < 10 then [DigitChar(n)] else Decimal(n / 10) + [DigitChar(n % 10)]
  }

  /** Reads a string of decimal digits back as a number. */
  function ParseDecimal(s: string): nat
    requires AllDigits(s)
    decreases |s|
  {
    if |s| == 0 then 0 else ParseDecimal(s[..|s| - 1]) * 10 + DigitValue(s[|s| - 1])
  }

  /** Reading back a rendered number gives the number: rendering is injective. */
  lemma {:induction false} DecimalRoundTrip(n: nat)
    ensures ParseDecimal(Decimal(n)) == n
    decreases n
  {
    var r := Decimal(n);
    if n < 10 {
      DigitRoundTrip(n);
    } else {
      DecimalRoundTrip(n / 10);
      assert r[..|r| - 1] == Decimal(n / 10);
      DigitRoundTrip(n % 10);
    }
  }

  /** An id of the form `<prefix><now>`, as built by a template literal around `Date.now()`. */
  function IdFor(prefix: string, now: nat): (id: string)
    ensures |id| > |prefix| && id[..|prefix|] == prefix
    ensures id[|prefix|..] == Decimal(now)
  {
    prefix + Decimal(now)
  }

  /** Two ids with the same prefix are equal exactly when they were built at the same millisecond. */
  lemma {:induction false} IdForInjective(prefix: string, a: nat, b: nat)
    ensures IdFor(prefix, a) == IdFor(prefix, b) <==> a == b
  {
    if IdFor(prefix, a) == IdFor(prefix, b) {
      assert Decimal(a) == IdFor(prefix, a)[|prefix|..];
      DecimalRoundTrip(a);
      DecimalRoundTrip(b);
    }
  }
}
