/** A nullable value: JavaScript `T | null`, Python `T | None`. */
module Common {
  datatype Option<+T> = None | Some(value: T)
}

/**
 * The few JavaScript string operations the ticketing front end relies on:
 * the digit filters written as regular-expression replacements, `String.prototype.trim`,
 * truthiness of a stored string, and `Number.prototype.toString` on non-negative safe integers.
 */
module JsText {
  import opened Common

  predicate IsDigit(c: char) {
    '0' <= c <= '9'
  }

  predicate AllDigits(s: string) {
    forall k :: 0 <= k < |s| ==> IsDigit(s[k])
  }

  /**
   * `s.replace(/[^0-9]/g, '')`, and equally `s.replace(/\D/g, '')` (without the `u` flag `\d` is
   * exactly `[0-9]`). Removing whitespace first, as the card formatters do, changes nothing,
   * since whitespace is not a digit either.
   */
  function KeepDigits(s: string): (r: string)
    ensures AllDigits(r)
    ensures |r| <= |s|
    ensures AllDigits(s) ==> r == s
  {
    if s == [] then []
    else if IsDigit(s[0]) then [s[0]] + KeepDigits(s[1..])
    else KeepDigits(s[1..])
  }

  /** Filtering distributes over concatenation. */
  lemma {:induction false} KeepDigitsAppend(a: string, b: string)
    ensures KeepDigits(a + b) == KeepDigits(a) + KeepDigits(b)
  {
    if a == [] {
      assert a + b == b;
    } else {
      assert (a + b)[0] == a[0] && (a + b)[1..] == a[1..] + b;
      KeepDigitsAppend(a[1..], b);
      if IsDigit(a[0]) {
        assert KeepDigits(a + b) == [a[0]] + KeepDigits(a[1..] + b);
        assert [a[0]] + (KeepDigits(a[1..]) + KeepDigits(b)) == ([a[0]] + KeepDigits(a[1..])) + KeepDigits(b);
      }
    }
  }

  /** The filter drops nothing exactly when every character is already a digit. */
  lemma {:induction false} KeepDigitsKeepsEveryDigit(s: string)
    ensures |KeepDigits(s)| == |s| <==> AllDigits(s)
  {
    if s != [] {
      KeepDigitsKeepsEveryDigit(s[1..]);
      if !IsDigit(s[0]) {
        assert !AllDigits(s);
      } else if AllDigits(s[1..]) {
        assert AllDigits(s);
      } else {
        var k :| 0 <= k < |s[1..]| && !IsDigit(s[1..][k]);
        assert !IsDigit(s[k + 1]);
      }
    }
  }

  /**
   * The characters `String.prototype.trim` removes: the ECMAScript WhiteSpace and
   * LineTerminator code points.
   */
  predicate IsWhitespace(c: char) {
    c in WhitespaceChars || '\U{2000}' <= c <= '\U{200A}'
  }

  const WhitespaceChars: set<char> :=
    {' ', '\t', '\n', '\r', '\U{000B}', '\U{000C}', '\U{00A0}', '\U{FEFF}',
     '\U{1680}', '\U{2028}', '\U{2029}', '\U{202F}', '\U{205F}', '\U{3000}'}

  /** `!s.trim()`: nothing but whitespace. */
  predicate IsBlank(s: string) {
    forall k :: 0 <= k < |s| ==> IsWhitespace(s[k])
  }

  /** The index of the first non-whitespace character at or after `i` (or `|s|`). */
  function SkipWhitespace(s: string, i: nat): (j: nat)
    requires i <= |s|
    ensures i <= j <= |s|
    ensures forall k :: i <= k < j ==> IsWhitespace(s[k])
    ensures j == |s| || !IsWhitespace(s[j])
    decreases |s| - i
  {
    if i < |s| && IsWhitespace(s[i]) then SkipWhitespace(s, i + 1) else i
  }

  /** The end of `s[lo..hi]` once the whitespace at its end is cut off. */
  function SkipWhitespaceBack(s: string, lo: nat, hi: nat): (j: nat)
    requires lo <= hi <= |s|
    ensures lo <= j <= hi
    ensures forall k :: j <= k < hi ==> IsWhitespace(s[k])
    ensures j == lo || !IsWhitespace(s[j - 1])
    decreases hi - lo
  {
    if lo < hi && IsWhitespace(s[hi - 1]) then SkipWhitespaceBack(s, lo, hi - 1) else hi
  }

  /** `r` is a slice of `s` with nothing but whitespace before it and after it. */
  predicate TrimmedFrom(r: string, s: string) {
    exists i :: 0 <= i && i + |r| <= |s| && r == s[i..i + |r|] && IsBlank(s[..i]) && IsBlank(s[i + |r|..])
  }

  /**
   * `s.trim()`: the slice of `s` between its leading and its trailing whitespace. It is empty
   * exactly when `s` is blank, and otherwise starts and ends with a non-whitespace character.
   */
  function Trim(s: string): (r: string)
    ensures r == [] || (!IsWhitespace(r[0]) && !IsWhitespace(r[|r| - 1]))
    ensures r == [] <==> IsBlank(s)
  {
    var i := SkipWhitespace(s, 0);
    var j := SkipWhitespaceBack(s, i, |s|);
    assert i < j ==> !IsWhitespace(s[i]);
    s[i..j]
  }

  /** `trim` removes whitespace at the two ends of `s` and nothing else. */
  lemma TrimCutsOnlyTheEnds(s: string)
    ensures TrimmedFrom(Trim(s), s)
  {
    var i := SkipWhitespace(s, 0);
    var j := SkipWhitespaceBack(s, i, |s|);
    assert Trim(s) == s[i..j] == s[i..i + |Trim(s)|];
    assert IsBlank(s[..i]) && IsBlank(s[j..]);
  }

  /** Truthiness of a stored string (`if (token)`): neither absent nor empty. */
  predicate Truthy(v: Option<string>) {
    v.Some? && v.value != ""
  }

  function DigitChar(d: nat): (c: char)
    requires d < 10
    ensures IsDigit(c) && DigitValue(c) == d
  {
    ('0' as int + d) as char
  }

  function DigitValue(c: char): int {
    c as int - '0' as int
  }

  /** The number a string of decimal digits denotes, most significant digit first. */
  function DecimalValue(s: string): nat
    requires AllDigits(s)
  {
    if s == [] then 0 else 10 * DecimalValue(s[..|s| - 1]) + DigitValue(s[|s| - 1])
  }

  /**
   * `n.toString()` for a non-negative integer up to `Number.MAX_SAFE_INTEGER` (2^53 - 1): the
   * decimal digits of `n`, with no leading zero. Larger doubles print differently (see README).
   */
  function DecimalString(n: nat): (r: string)
    ensures |r| >= 1 && AllDigits(r)
    ensures DecimalValue(r) == n
    ensures r[0] == '0' <==> n == 0
  {
    if n < 10 then [DigitChar(n)]
    else
      var r := DecimalString(n / 10) + [DigitChar(n % 10)];
      assert r[..|r| - 1] == DecimalString(n / 10);
      r
  }

  /** Different counts never print the same. */
  lemma DecimalStringInjective(a: nat, b: nat)
    ensures DecimalString(a) == DecimalString(b) <==> a == b
  {
  }
}
