/** String helpers that reproduce the few JavaScript string operations the
    application relies on: integer-to-string conversion (template literals),
    `String.prototype.includes`, `toLowerCase`, `trim` and `padStart(2, '0')`.
    Strings are sequences of characters. */
module Text {

  // ---------------------------------------------------------------------
  // Decimal digits
  // ---------------------------------------------------------------------

  predicate IsDigit(c: char) {
    '0' <= c <= '9'
  }

  predicate AllDigits(s: string) {
    forall i :: 0 <= i < |s| ==> IsDigit(s[i])
  }

  function DigitChar(d: nat): (c: char)
    requires d < 10
    ensures IsDigit(c) && DigitValue(c) == d
  {
    "0123456789"[d]
  }

  function DigitValue(c: char): (d: nat)
    requires IsDigit(c)
    ensures d < 10
  {
    (c as int - '0' as int) as nat
  }

  /** The decimal text of a non-negative integer, as JavaScript prints an
      integral number: no sign, no leading zeros. */
  function NatToString(n: nat): (s: string)
    ensures |s| >= 1 && AllDigits(s)
    ensures s[0] == '0' ==> n == 0
    ensures n < 10 <==> |s| == 1
    decreases n
  {
    if n < 10 then [DigitChar(n)] else NatToString(n / 10) + [DigitChar(n % 10)]
  }

  /** JavaScript's `String(i)` for an integral number. */
  function IntToString(i: int): (s: string)
    ensures |s| >= 1
    ensures i >= 0 <==> s[0] != '-'
  {
    if i < 0 then "-" + NatToString(-i) else NatToString(i)
  }

  /** The value of a string of decimal digits; the empty string reads as 0. */
  function ParseNat(s: string): nat
    requires AllDigits(s)
    decreases |s|
  {
    if |s| == 0 then 0 else ParseNat(s[..|s| - 1]) * 10 + DigitValue(s[|s| - 1])
  }

  /** Reading back the decimal text of `n` recovers `n`. */
  lemma {:induction false} ParseNatToString(n: nat)
    ensures ParseNat(NatToString(n)) == n
    decreases n
  {
    var s := NatToString(n);
    if n >= 10 {
      ParseNatToString(n / 10);
      assert s[..|s| - 1] == NatToString(n / 10);
    }
  }

  // ---------------------------------------------------------------------
  // Substring search (String.prototype.includes)
  // ---------------------------------------------------------------------

  predicate OccursAt(s: string, sub: string, i: int) {
    0 <= i && i + |sub| <= |s| && s[i..i + |sub|] == sub
  }

  /** `s.includes(sub)`: true exactly when `sub` occurs somewhere in `s`. */
  predicate Contains(s: string, sub: string) {
    exists i | 0 <= i <= |s| - |sub| :: OccursAt(s, sub, i)
  }

  /** As with `includes`, the empty string occurs in every string, and no
      string occurs in a shorter one. */
  lemma ContainsBounds(s: string, sub: string)
    ensures Contains(s, [])
    ensures |sub| > |s| ==> !Contains(s, sub)
  {
    assert OccursAt(s, [], 0);
  }

  // ---------------------------------------------------------------------
  // Case and white space
  // ---------------------------------------------------------------------

  /** An ASCII capital letter. */
  predicate IsUpper(c: char) {
    'A' <= c <= 'Z'
  }

  /** No ASCII capital letter anywhere in `s`. */
  predicate NoUpper(s: string) {
    forall i :: 0 <= i < |s| ==> !IsUpper(s[i])
  }

  /** The lower case of one character, for the characters whose lower case
      is a single ASCII letter: `A` to `Z`, and the Kelvin sign U+212A, which
      lower-cases to `k`. Every other character is kept as it is. */
  function LowerChar(c: char): (l: char)
    ensures 'A' <= c <= 'Z' ==> 'a' <= l <= 'z' && l as int - c as int == 32
    ensures c == '\U{212A}' ==> l == 'k'
    ensures !IsUpper(l)
  {
    if 'A' <= c <= 'Z' then (c as int + 32) as char
    else if c == '\U{212A}' then 'k'
    else c
  }

  /** `toLowerCase`, character by character, with `LowerChar`'s mapping. */
  function ToLower(s: string): (r: string)
    ensures |r| == |s|
    ensures forall i :: 0 <= i < |s| ==> r[i] == LowerChar(s[i])
  {
    seq(|s|, i requires 0 <= i < |s| => LowerChar(s[i]))
  }

  /** The characters ECMAScript's `trim` removes: WhiteSpace and LineTerminator. */
  predicate IsJsWhitespace(c: char) {
    c == ' ' || c == '\t' || c == '\n' || c == '\r' || c == '\U{000B}' || c == '\U{000C}'
    || c == '\U{00A0}' || c == '\U{1680}' || ('\U{2000}' <= c <= '\U{200A}')
    || c == '\U{2028}' || c == '\U{2029}' || c == '\U{202F}' || c == '\U{205F}'
    || c == '\U{3000}' || c == '\U{FEFF}'
  }

  /** Drops leading white space: the result is the longest suffix of `s`
      that does not start with white space. */
  function TrimStart(s: string): (r: string)
    ensures |r| <= |s| && r == s[|s| - |r|..]
    ensures r == [] || !IsJsWhitespace(r[0])
    ensures forall i :: 0 <= i < |s| - |r| ==> IsJsWhitespace(s[i])
    decreases |s|
  {
    if |s| > 0 && IsJsWhitespace(s[0]) then TrimStart(s[1..]) else s
  }

  /** Drops trailing white space: the result is the longest prefix of `s`
      that does not end with white space. */
  function TrimEnd(s: string): (r: string)
    ensures |r| <= |s| && r == s[..|r|]
    ensures r == [] || !IsJsWhitespace(r[|r| - 1])
    ensures forall i :: |r| <= i < |s| ==> IsJsWhitespace(s[i])
    decreases |s|
  {
    if |s| > 0 && IsJsWhitespace(s[|s| - 1]) then TrimEnd(s[..|s| - 1]) else s
  }

  /** `r` is `s` with white space only removed from its two ends,
      `r` starting at index `k` of `s`. */
  predicate TrimmedAt(s: string, r: string, k: int) {
    && 0 <= k && k + |r| <= |s| && r == s[k..k + |r|]
    && (forall i :: 0 <= i < k ==> IsJsWhitespace(s[i]))
    && (forall i :: k + |r| <= i < |s| ==> IsJsWhitespace(s[i]))
  }

  /** `trim`: no white space at either end, and only white space removed. */
  function Trim(s: string): (r: string)
    ensures r == [] || (!IsJsWhitespace(r[0]) && !IsJsWhitespace(r[|r| - 1]))
    ensures exists k :: TrimmedAt(s, r, k)
  {
    var t := TrimStart(s);
    var r := TrimEnd(t);
    TrimmedAtParts(s, t, r);
    assert r != [] ==> r[0] == t[0];
    r
  }

  /** Trimming the end of what is left after trimming the start removes
      white space only, from the two ends. */
  lemma TrimmedAtParts(s: string, t: string, r: string)
    requires |t| <= |s| && t == s[|s| - |t|..] && forall i :: 0 <= i < |s| - |t| ==> IsJsWhitespace(s[i])
    requires |r| <= |t| && r == t[..|r|] && forall i :: |r| <= i < |t| ==> IsJsWhitespace(t[i])
    ensures TrimmedAt(s, r, |s| - |t|)
  {
    SliceOfSuffix(s, t, r, |s| - |t|);
  }

  /** A prefix `r` of the suffix `t` of `s` that starts at `k` is a slice
      of `s`, and what follows it in `t` follows it in `s`. */
  lemma SliceOfSuffix<T>(s: seq<T>, t: seq<T>, r: seq<T>, k: int)
    requires 0 <= k <= |s| && t == s[k..] && |r| <= |t| && r == t[..|r|]
    ensures r == s[k..k + |r|]
    ensures forall i :: k + |r| <= i < |s| ==> s[i] == t[i - k]
  {
  }

  /** A string with no white space at either end is its own trim. */
  lemma TrimUntouched(s: string)
    requires s != [] && !IsJsWhitespace(s[0]) && !IsJsWhitespace(s[|s| - 1])
    ensures Trim(s) == s
  {
    assert TrimStart(s) == s;
    assert TrimEnd(s) == s;
  }

  /** Trimming a lower-cased string leaves no capital letter in it. */
  lemma TrimLower(s: string)
    ensures NoUpper(Trim(ToLower(s)))
  {
    var l := ToLower(s);
    LowerNoUpper(s);
    var t := Trim(l);
    var k :| TrimmedAt(l, t, k);
    NoUpperSlice(l, k, k + |t|);
  }

  lemma LowerNoUpper(s: string)
    ensures NoUpper(ToLower(s))
  {
  }

  lemma NoUpperSlice(s: string, i: int, j: int)
    requires NoUpper(s) && 0 <= i <= j <= |s|
    ensures NoUpper(s[i..j])
  {
    assert forall k :: 0 <= k < j - i ==> s[i..j][k] == s[i + k];
  }

  /** `str.padStart(2, '0')`: zeros in front up to length 2; a longer string
      is left as it is. */
  function PadStart2(str: string): (r: string)
    ensures |r| == if |str| < 2 then 2 else |str|
    ensures r[|r| - |str|..] == str
    ensures forall i :: 0 <= i < |r| - |str| ==> r[i] == '0'
  {
    if |str| == 0 then "00" else if |str| == 1 then "0" + str else str
  }
}
