/** The two JavaScript string primitives the handlers rely on:
    `String.prototype.trim` and the decimal rendering of a snowflake id
    (`BigInt.prototype.toString()`). */
module JsText {

  /** The characters `trim` removes: ECMAScript WhiteSpace (TAB, VT, FF,
      ZWNBSP and every Unicode "Zs" space) and LineTerminator (LF, CR, LS, PS). */
  predicate IsWhiteSpace(c: char) {
    var n := c as int;
    n == 0x09 || n == 0x0B || n == 0x0C || n == 0x20 || n == 0xA0 || n == 0xFEFF ||
    n == 0x1680 || (0x2000 <= n <= 0x200A) || n == 0x202F || n == 0x205F || n == 0x3000 ||
    n == 0x0A || n == 0x0D || n == 0x2028 || n == 0x2029
  }

  /** The index of the first non-white character at or after `i` (or
      `|s|`). */
  function SkipWhite(s: string, i: nat): (k: nat)
    requires i <= |s|
    ensures i <= k <= |s|
    decreases |s| - i
  {
    if i < |s| && IsWhiteSpace(s[i]) then SkipWhite(s, i + 1) else i
  }

  /** One past the last non-white character of `s[lo..j]` (or `lo`). */
  function SkipWhiteBack(s: string, lo: nat, j: nat): (k: nat)
    requires lo <= j <= |s|
    ensures lo <= k <= j
    decreases j
  {
    if lo < j && IsWhiteSpace(s[j - 1]) then SkipWhiteBack(s, lo, j - 1) else j
  }

  /** `s.trim()`: the characters between the leading and the trailing
      white space. The result is never longer than `s` and neither starts
      nor ends with white space. */
  function Trim(s: string): (r: string)
    ensures |r| <= |s|
    ensures r != [] ==> !IsWhiteSpace(r[0]) && !IsWhiteSpace(r[|r| - 1])
  {
    var i := SkipWhite(s, 0);
    var j := SkipWhiteBack(s, i, |s|);
    SkipWhiteSpec(s, 0);
    SkipWhiteBackSpec(s, i, |s|);
    s[i..j]
  }

  /** `SkipWhite` stops at the first non-white character and passes only
      white space. */
  lemma {:induction false} SkipWhiteSpec(s: string, i: nat)
    requires i <= |s|
    ensures var k := SkipWhite(s, i);
      (forall p :: i <= p < k ==> IsWhiteSpace(s[p])) && (k < |s| ==> !IsWhiteSpace(s[k]))
    decreases |s| - i
  {
    if i < |s| && IsWhiteSpace(s[i]) {
      SkipWhiteSpec(s, i + 1);
    }
  }

  /** `SkipWhiteBack` stops after the last non-white character and passes
      only white space. */
  lemma {:induction false} SkipWhiteBackSpec(s: string, lo: nat, j: nat)
    requires lo <= j <= |s|
    ensures var k := SkipWhiteBack(s, lo, j);
      (forall p :: k <= p < j ==> IsWhiteSpace(s[p])) && (lo < k ==> !IsWhiteSpace(s[k - 1]))
    decreases j
  {
    if lo < j && IsWhiteSpace(s[j - 1]) {
      SkipWhiteBackSpec(s, lo, j - 1);
    }
  }

  /** `Trim(s)` is the slice `s[i..j]` of `s` such that everything before
      `i` and from `j` on is white space and the slice neither starts nor
      ends with white space: what `trim` removes is exactly the white space
      at both ends. */
  lemma TrimSpec(s: string)
    ensures var i := SkipWhite(s, 0);
      var j := SkipWhiteBack(s, i, |s|);
      Trim(s) == s[i..j] &&
      (forall p :: 0 <= p < i ==> IsWhiteSpace(s[p])) &&
      (forall p :: j <= p < |s| ==> IsWhiteSpace(s[p])) &&
      (i < j ==> !IsWhiteSpace(s[i]) && !IsWhiteSpace(s[j - 1]))
  {
    var i := SkipWhite(s, 0);
    SkipWhiteSpec(s, 0);
    SkipWhiteBackSpec(s, i, |s|);
  }

  /** A string with no white space at either end is left unchanged by `trim`. */
  lemma TrimKeepsTrimmed(s: string)
    requires s != [] ==> !IsWhiteSpace(s[0]) && !IsWhiteSpace(s[|s| - 1])
    ensures Trim(s) == s
  {
    if s != [] {
      assert SkipWhite(s, 0) == 0;
      assert SkipWhiteBack(s, 0, |s|) == |s|;
    }
  }

  /** Trimming twice is trimming once. */
  lemma TrimIdempotent(s: string)
    ensures Trim(Trim(s)) == Trim(s)
  {
    TrimSpec(s);
    var i := SkipWhite(s, 0);
    var j := SkipWhiteBack(s, i, |s|);
    if i < j {
      assert Trim(s)[0] == s[i] && Trim(s)[|Trim(s)| - 1] == s[j - 1];
    }
    TrimKeepsTrimmed(Trim(s));
  }

  /** `\d` in a JavaScript regular expression: the ASCII digits only. */
  predicate IsDigit(c: char) {
    '0' <= c <= '9'
  }

  predicate AllDigits(s: string) {
    forall k :: 0 <= k < |s| ==> IsDigit(s[k])
  }

  function DigitChar(d: nat): (c: char)
    requires d < 10
    ensures IsDigit(c)
  {
    (48 + d) as char
  }

  function DigitValue(c: char): (d: nat)
    requires IsDigit(c)
    ensures d < 10 && DigitChar(d) == c
  {
    (c as int - 48) as nat
  }

  /** `id.toString()` for a non-negative BigInt: its decimal digits, most
      significant first, with no leading zero (and "0" for zero). */
  function DecimalString(n: nat): (r: string)
    ensures |r| >= 1 && AllDigits(r)
    ensures r[0] == '0' ==> n == 0 && r == "0"
  {
    if n < 10 then [DigitChar(n)]
    else
      var p := DecimalString(n / 10);
      p + [DigitChar(n % 10)]
  }

  /** The value a string of decimal digits denotes. */
  function ParseDecimal(s: string): (n: nat)
    requires AllDigits(s)
  {
    if s == [] then 0 else ParseDecimal(s[..|s| - 1]) * 10 + DigitValue(s[|s| - 1])
  }

  /** Reading back a rendered id gives the id. */
  lemma {:induction false} ParseDecimalString(n: nat)
    ensures ParseDecimal(DecimalString(n)) == n
  {
    var r := DecimalString(n);
    if n < 10 {
      assert r[..0] == [];
    } else {
      assert r[..|r| - 1] == DecimalString(n / 10);
      ParseDecimalString(n / 10);
    }
  }

  /** Two distinct ids never render to the same header value. */
  lemma DecimalStringInjective(a: nat, b: nat)
    requires DecimalString(a) == DecimalString(b)
    ensures a == b
  {
    ParseDecimalString(a);
    ParseDecimalString(b);
  }
}
