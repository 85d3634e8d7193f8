/** The JavaScript values the book screen handles, with the parts of the
    language its logic depends on: `undefined`, numbers including NaN, the
    truthiness of both, `String.prototype.trim` and the UTF-16 `length` of a
    string. */
module JsValues {

  /** A property value that may be missing; `None` stands for `undefined`. */
  datatype Option<+T> = None | Some(value: T)

  /** A JavaScript number: NaN, one of the two infinities, or a finite value. */
  datatype Number = NaN | Infinity(positive: bool) | Finite(x: real)

  /** ToBoolean of a string-valued property: `undefined` and "" are falsy. */
  predicate TruthyString(s: Option<string>) {
    s.Some? && s.value != ""
  }

  /** ToBoolean of a number-valued property: `undefined`, NaN and 0 are falsy. */
  predicate TruthyNumber(n: Option<Number>) {
    n.Some? && !n.value.NaN? && n.value != Finite(0.0)
  }

  /** The global `isNaN` applied to a number. */
  predicate IsNaN(n: Number) {
    n.NaN?
  }

  /** The comparison `n <= 0`, which is false whenever NaN is involved. */
  predicate AtMostZero(n: Number) {
    match n
    case NaN => false
    case Infinity(positive) => !positive
    case Finite(x) => x <= 0.0
  }

  /** The numbers below zero. */
  predicate Negative(n: Number) {
    n == Infinity(false) || (n.Finite? && n.x < 0.0)
  }

  /** The characters `trim` removes: ECMAScript's WhiteSpace and LineTerminator. */
  predicate IsWhitespace(c: char) {
    || c == '\t' || c == '\n' || c == '\U{B}' || c == '\U{C}' || c == '\r' || c == ' '
    || c == '\U{A0}' || c == '\U{1680}' || ('\U{2000}' <= c <= '\U{200A}')
    || c == '\U{2028}' || c == '\U{2029}' || c == '\U{202F}' || c == '\U{205F}'
    || c == '\U{3000}' || c == '\U{FEFF}'
  }

  /** Every character of `s` is one that `trim` removes. */
  predicate Blank(s: string) {
    forall i :: 0 <= i < |s| ==> IsWhitespace(s[i])
  }

  /** The length of the white-space prefix of `s`. */
  function LeadingBlanks(s: string): (k: nat)
    ensures k <= |s| && Blank(s[..k])
    ensures k < |s| ==> !IsWhitespace(s[k])
  {
    if s == [] || !IsWhitespace(s[0]) then 0 else 1 + LeadingBlanks(s[1..])
  }

  /** The length of the white-space suffix of `s`. */
  function TrailingBlanks(s: string): (k: nat)
    ensures k <= |s| && Blank(s[|s| - k..])
    ensures k < |s| ==> !IsWhitespace(s[|s| - k - 1])
  {
    if s == [] || !IsWhitespace(s[|s| - 1]) then 0
    else 1 + TrailingBlanks(s[..|s| - 1])
  }

  /** `s.trim()`: `s` without its white-space prefix and suffix. */
  function Trim(s: string): (r: string)
    ensures r == [] || (!IsWhitespace(r[0]) && !IsWhitespace(r[|r| - 1]))
    ensures exists i, j :: 0 <= i <= j <= |s| && r == s[i..j] && Blank(s[..i]) && Blank(s[j..])
  {
    var i := LeadingBlanks(s);
    var t := s[i..];
    var j := i + |t| - TrailingBlanks(t);
    assert t[..|t| - TrailingBlanks(t)] == s[i..j];
    assert s[j..] == t[|t| - TrailingBlanks(t)..];
    s[i..j]
  }

  /** `s.trim() === ''` holds exactly of the strings made only of white space. */
  lemma TrimEmptyIffBlank(s: string)
    ensures Trim(s) == "" <==> Blank(s)
  {
    var i, j :| 0 <= i <= j <= |s| && Trim(s) == s[i..j] && Blank(s[..i]) && Blank(s[j..]);
    if Trim(s) == "" {
      assert s == s[..i] + s[j..];
    } else {
      assert Trim(s)[0] == s[i] && !IsWhitespace(s[i]);
    }
  }

  /** `s.length`: the number of UTF-16 code units, two for a character
      outside the Basic Multilingual Plane. */
  function Utf16Length(s: string): (n: nat)
    ensures |s| <= n <= 2 * |s|
  {
    if s == [] then 0
    else (if s[0] as int < 0x1_0000 then 1 else 2) + Utf16Length(s[1..])
  }
}
