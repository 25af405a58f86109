/** String helpers the application relies on: JavaScript's `String.prototype.trim`
    and the decimal rendering of a non-negative integer in a template literal. */
module Text {

  /** The characters `trim` removes: ECMAScript's WhiteSpace (tab, vertical tab,
      form feed, no-break space, byte-order mark and the Unicode space separators)
      and LineTerminator (line feed, carriage return, line and paragraph separators). */
  predicate IsWhitespace(c: char) {
    var n := c as int;
    n == 0x09 || n == 0x0B || n == 0x0C || n == 0x20 || n == 0xA0 || n == 0xFEFF
    || n == 0x1680 || (0x2000 <= n <= 0x200A) || n == 0x202F || n == 0x205F || n == 0x3000
    || n == 0x0A || n == 0x0D || n == 0x2028 || n == 0x2029
  }

  predicate AllWhitespace(s: string) {
    forall k :: 0 <= k < |s| ==> IsWhitespace(s[k])
  }

  /** Scanning forward from `i`: the first index that is not whitespace, or `|s|`. */
  function SkipLeading(s: string, i: nat): (j: nat)
    requires i <= |s|
    ensures i <= j <= |s|
    ensures forall k :: i <= k < j ==> IsWhitespace(s[k])
    ensures j < |s| ==> !IsWhitespace(s[j])
    decreases |s| - i
  {
    if i < |s| && IsWhitespace(s[i]) then SkipLeading(s, i + 1) else i
  }

  /** Scanning backward from `j` down to `lo`: the end of the last character
      that is not whitespace, or `lo`. */
  function SkipTrailing(s: string, lo: nat, j: nat): (e: nat)
    requires lo <= j <= |s|
    ensures lo <= e <= j
    ensures forall k :: e <= k < j ==> IsWhitespace(s[k])
    ensures e > lo ==> !IsWhitespace(s[e - 1])
  {
    if j > lo && IsWhitespace(s[j - 1]) then SkipTrailing(s, lo, j - 1) else j
  }

  /** `s.trim()`: the slice of `s` between its leading and its trailing whitespace.
      What is cut off on either side is whitespace, the result has whitespace on
      neither end, and it is empty exactly when `s` is all whitespace (the
      source's falsy `!s.trim()` test). */
  function Trim(s: string): (r: string)
    ensures exists lo, hi :: (0 <= lo <= hi <= |s| && r == s[lo..hi]
                              && forall k :: 0 <= k < lo || hi <= k < |s| ==> IsWhitespace(s[k]))
    ensures r != [] ==> !IsWhitespace(r[0]) && !IsWhitespace(r[|r| - 1])
    ensures r == [] <==> AllWhitespace(s)
  {
    var lo := SkipLeading(s, 0);
    var hi := SkipTrailing(s, lo, |s|);
    assert lo < hi ==> s[lo..hi][0] == s[lo];
    s[lo..hi]
  }

  /** Trimming twice is trimming once. */
  lemma TrimIdempotent(s: string)
    ensures Trim(Trim(s)) == Trim(s)
  {
    var r := Trim(s);
    assert SkipLeading(r, 0) == 0;
    assert SkipTrailing(r, 0, |r|) == |r|;
    assert r[0..|r|] == r;
  }

  predicate IsDigit(c: char) {
    '0' <= c <= '9'
  }

  predicate AllDigits(s: string) {
    forall k :: 0 <= k < |s| ==> IsDigit(s[k])
  }

  function DigitChar(d: nat): (c: char)
    requires d < 10
    ensures IsDigit(c) && c as int - '0' as int == d
  {
    ('0' as int + d) as char
  }

  /** The number a string of decimal digits denotes (most significant first). */
  function DigitsValue(s: string): nat
    requires AllDigits(s)
  {
    if s == [] then 0 else DigitsValue(s[..|s| - 1]) * 10 + (s[|s| - 1] as int - '0' as int)
  }

  /** The decimal form of `n`, as a template literal renders a non-negative integer:
      digits only, no leading zero, one character exactly below ten, and reading
      the digits back gives `n`. */
  function NatToString(n: nat): (r: string)
    ensures |r| >= 1 && AllDigits(r) && DigitsValue(r) == n
    ensures r[0] == '0' <==> n == 0
    ensures |r| == 1 <==> n < 10
  {
    if n < 10 then [DigitChar(n)]
    else
      var r := NatToString(n / 10) + [DigitChar(n % 10)];
      assert r[..|r| - 1] == NatToString(n / 10);
      r
  }
}
