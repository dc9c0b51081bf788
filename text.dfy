/** String helpers shared by the modules: whitespace as JavaScript sees it,
    trimming, ASCII lower-casing, decimal rendering of integers, prefix,
    suffix and substring tests. */
module Text {
  import opened Wrappers

  /** JavaScript's `\s` and `String.prototype.trim` whitespace: the WhiteSpace
      and LineTerminator code points of ECMA-262 (the space separators of
      Unicode class Zs, tab, vertical tab, form feed, ZWNBSP, LF, CR, LS, PS). */
  predicate IsSpace(c: char) {
    || c == '\t' || c == '\n' || c == '\U{000B}' || c == '\U{000C}' || c == '\r'
    || c == ' ' || c == '\U{00A0}' || c == '\U{1680}'
    || ('\U{2000}' <= c <= '\U{200A}')
    || c == '\U{2028}' || c == '\U{2029}' || c == '\U{202F}' || c == '\U{205F}'
    || c == '\U{3000}' || c == '\U{FEFF}'
  }

  predicate AllSpace(s: string) {
    forall k :: 0 <= k < |s| ==> IsSpace(s[k])
  }

  /** JavaScript truthiness of a string that may be `null`/`undefined`. */
  predicate Truthy(s: Option<string>) {
    s.Some? && s.value != ""
  }

  /** `a || b` on two possibly absent strings. */
  function OrElse(a: Option<string>, b: Option<string>): (r: Option<string>)
    ensures Truthy(a) ==> r == a
    ensures !Truthy(a) ==> r == b
  {
    if Truthy(a) then a else b
  }

  /** `a || b || ... || ""`: the first truthy string, or "" when there is none. */
  function FirstTruthy(cands: seq<Option<string>>): (r: string)
    ensures forall i :: 0 <= i < |cands| && Truthy(cands[i]) && (forall j :: 0 <= j < i ==> !Truthy(cands[j])) ==>
      r == cands[i].value
    ensures (forall i :: 0 <= i < |cands| ==> !Truthy(cands[i])) ==> r == ""
  {
    if cands == [] then ""
    else if Truthy(cands[0]) then cands[0].value
    else
      var r := FirstTruthy(cands[1..]);
      assert forall i :: 1 <= i < |cands| ==> cands[i] == cands[1..][i - 1];
      r
  }

  function TrimStart(s: string): (r: string)
    ensures |r| <= |s| && r == s[|s| - |r|..]
    ensures r == [] || !IsSpace(r[0])
    ensures forall k :: 0 <= k < |s| - |r| ==> IsSpace(s[k])
  {
    if s != [] && IsSpace(s[0]) then TrimStart(s[1..]) else s
  }

  function TrimEnd(s: string): (r: string)
    ensures |r| <= |s| && r == s[..|r|]
    ensures r == [] || !IsSpace(r[|r| - 1])
    ensures forall k :: |r| <= k < |s| ==> IsSpace(s[k])
  {
    if s != [] && IsSpace(s[|s| - 1]) then TrimEnd(s[..|s| - 1]) else s
  }

  /** `String.prototype.trim`: drops the whitespace at both ends. The result
      is the slice of `s` starting after its leading whitespace, with only
      whitespace after it; it is empty exactly when `s` is all whitespace,
      and otherwise it starts and ends with a non-space character. */
  function Trim(s: string): (r: string)
    ensures |r| <= |s|
    ensures r == [] <==> AllSpace(s)
    ensures r != [] ==> !IsSpace(r[0]) && !IsSpace(r[|r| - 1])
    ensures var i := LeadingSpaces(s);
      && i + |r| <= |s| && r == s[i..i + |r|]
      && (forall k :: 0 <= k < i ==> IsSpace(s[k]))
      && (forall k :: i + |r| <= k < |s| ==> IsSpace(s[k]))
  {
    var t := TrimStart(s);
    var u := TrimEnd(t);
    assert u == [] ==> t == [];
    assert t != [] ==> t[0] == s[|s| - |t|];
    TrimTailIsSpace(s, t, u);
    u
  }

  /** How many characters `TrimStart` drops. */
  function LeadingSpaces(s: string): (n: nat)
    ensures n <= |s|
  {
    |s| - |TrimStart(s)|
  }

  /** What `TrimEnd` drops from the end of a suffix of `s` is whitespace of `s`. */
  lemma {:induction false} TrimTailIsSpace(s: string, t: string, u: string)
    requires |t| <= |s| && t == s[|s| - |t|..]
    requires |u| <= |t| && u == t[..|u|]
    requires forall k :: |u| <= k < |t| ==> IsSpace(t[k])
    ensures forall k :: |s| - |t| + |u| <= k < |s| ==> IsSpace(s[k])
  {
    var i := |s| - |t|;
    forall k | i + |u| <= k < |s|
      ensures IsSpace(s[k])
    {
      assert s[k] == t[k - i];
    }
  }

  /** ASCII lower-casing. JavaScript's and Python's `lower` map more code
      points. Two of them produce ASCII letters: KELVIN SIGN (U+212A)
      becomes 'k', which none of the compared words contains, and LATIN
      CAPITAL LETTER I WITH DOT ABOVE (U+0130) becomes "i" followed by
      U+0307, whose combining mark keeps the result unequal to every
      compared word. So comparisons agree with the source; a lowered
      string that is shown back differs from the source's wherever it
      holds a non-ASCII letter with a lower-case form. */
  function LowerChar(c: char): char {
    if 'A' <= c <= 'Z' then (c as int + 32) as char else c
  }

  function ToLower(s: string): (r: string)
    ensures |r| == |s| && forall k :: 0 <= k < |s| ==> r[k] == LowerChar(s[k])
  {
    seq(|s|, k requires 0 <= k < |s| => LowerChar(s[k]))
  }

  /** Lower-casing a lower-cased string changes nothing. */
  lemma ToLowerIdempotent(s: string)
    ensures ToLower(ToLower(s)) == ToLower(s)
  {
    forall k | 0 <= k < |s|
      ensures ToLower(ToLower(s))[k] == ToLower(s)[k]
    {
    }
  }

  /** JavaScript's `length`: UTF-16 code units, two for a code point
      beyond the Basic Multilingual Plane. */
  function Utf16Length(s: string): (n: nat)
    ensures |s| <= n <= 2 * |s|
  {
    if s == [] then 0 else (if s[0] as int >= 0x1_0000 then 2 else 1) + Utf16Length(s[1..])
  }

  /** Text within the Basic Multilingual Plane has one code unit per character. */
  lemma {:induction false} Utf16LengthBmp(s: string)
    requires forall k :: 0 <= k < |s| ==> s[k] as int < 0x1_0000
    ensures Utf16Length(s) == |s|
  {
    if s != [] {
      Utf16LengthBmp(s[1..]);
    }
  }

  /** A string that neither starts nor ends with whitespace is its own trim. */
  lemma TrimUnpadded(s: string)
    requires s != [] && !IsSpace(s[0]) && !IsSpace(s[|s| - 1])
    ensures Trim(s) == s
  {
    assert TrimStart(s) == s;
    assert TrimEnd(s) == s;
  }

  predicate IsDigit(c: char) {
    '0' <= c <= '9'
  }

  function DigitChar(d: nat): (c: char)
    requires d < 10
    ensures IsDigit(c) && c as int - '0' as int == d
  {
    ('0' as int + d) as char
  }

  /** The value of a string of decimal digits. */
  function DigitsValue(s: string): nat
    requires forall k :: 0 <= k < |s| ==> IsDigit(s[k])
  {
    if s == [] then 0
    else
      assert IsDigit(s[|s| - 1]);
      DigitsValue(s[..|s| - 1]) * 10 + (s[|s| - 1] as int - '0' as int)
  }

  /** The decimal rendering of a natural number, as JavaScript's template
      literals and Python's `str` give it: digits only, no leading zero. */
  function NatToString(n: nat): (r: string)
    ensures r != [] && forall k :: 0 <= k < |r| ==> IsDigit(r[k])
    ensures |r| > 1 ==> r[0] != '0'
    decreases n
  {
    if n < 10 then [DigitChar(n)] else NatToString(n / 10) + [DigitChar(n % 10)]
  }

  /** Reading back the rendering gives the number again. */
  lemma {:induction false} NatToStringRoundTrip(n: nat)
    ensures DigitsValue(NatToString(n)) == n
    decreases n
  {
    if n >= 10 {
      var s := NatToString(n);
      assert s[..|s| - 1] == NatToString(n / 10);
      NatToStringRoundTrip(n / 10);
    }
  }

  /** The rendering of an integer: a minus sign before negative values. */
  function IntToString(i: int): (r: string)
    ensures i >= 0 ==> r == NatToString(i)
    ensures i < 0 ==> r == "-" + NatToString(-i)
  {
    if i < 0 then "-" + NatToString(-i) else NatToString(i)
  }

  predicate HasPrefix(s: string, p: string) {
    |p| <= |s| && s[..|p|] == p
  }

  predicate HasSuffix(s: string, p: string) {
    |p| <= |s| && s[|s| - |p|..] == p
  }

  /** `String.prototype.includes`. */
  predicate Contains(s: string, t: string) {
    exists i :: 0 <= i <= |s| - |t| && OccursAt(s, t, i)
  }

  predicate OccursAt(s: string, t: string, i: int) {
    0 <= i <= |s| - |t| && s[i..i + |t|] == t
  }
}
