/**
 * Shared vocabulary: optional values, JavaScript numbers as produced by
 * `parseInt`/`parseFloat`, JavaScript truthiness of strings, and
 * `String.prototype.trim`.
 */
module Common {

  datatype Option<+T> = None | Some(value: T) {
    /** The wrapped value, or `default` when absent (JavaScript `x || default` for non-strings). */
    function GetOr(default: T): T {
      match this
      case Some(v) => v
      case None => default
    }
  }

  /** A backend call's outcome: the returned payload or the error message. */
  datatype Outcome<+T> = Success(value: T) | Failure(message: string)

  /** A JavaScript number as far as the validators look at it. */
  datatype Num = NaN | Finite(value: real) | Infinity(positive: bool)

  const Zero: Num := Finite(0.0)

  /** `n === 0` (NaN is never equal to anything). */
  predicate IsZero(n: Num) {
    n.Finite? && n.value == 0.0
  }

  /** `n < 0` (false for NaN). */
  predicate IsNegative(n: Num) {
    (n.Finite? && n.value < 0.0) || (n.Infinity? && !n.positive)
  }

  /** `n <= 0` (false for NaN). */
  predicate IsNonPositive(n: Num) {
    IsZero(n) || IsNegative(n)
  }

  /** `n || 0`: NaN and zero become 0, everything else is kept. */
  function OrZero(n: Num): (r: Num)
    ensures !r.NaN?
    ensures IsZero(r) <==> n.NaN? || IsZero(n)
    ensures !n.NaN? && !IsZero(n) ==> r == n
  {
    if n.NaN? || IsZero(n) then Zero else n
  }

  /** A string is truthy in JavaScript exactly when it is not empty. */
  predicate Truthy(o: Option<string>) {
    o.Some? && o.value != ""
  }

  /** `o || fallback` for an optional string. */
  function OrElse(o: Option<string>, fallback: string): (r: string)
    ensures Truthy(o) ==> r == o.value
    ensures !Truthy(o) ==> r == fallback
  {
    if Truthy(o) then o.value else fallback
  }

  /** A UTF-16 code unit count: one for a character of the Basic Multilingual Plane, two for any other. */
  function Utf16Units(c: char): nat {
    if c as int > 0xFFFF then 2 else 1
  }

  /** JavaScript's `s.length`: the number of UTF-16 code units of `s`. */
  function Utf16Length(s: string): (n: nat)
    ensures |s| <= n <= 2 * |s|
  {
    if s == [] then 0 else Utf16Units(s[0]) + Utf16Length(s[1..])
  }

  /** The JavaScript length equals the character count exactly when no character lies outside the Basic Multilingual Plane. */
  lemma {:induction false} Utf16LengthIsCountIffBmp(s: string)
    ensures Utf16Length(s) == |s| <==> forall k :: 0 <= k < |s| ==> Utf16Units(s[k]) == 1
  {
    if s != [] {
      Utf16LengthIsCountIffBmp(s[1..]);
      assert forall k :: 1 <= k < |s| ==> s[k] == s[1..][k - 1];
    }
  }

  /** The characters `String.prototype.trim` strips: WhiteSpace and LineTerminator of ECMAScript. */
  predicate IsJsWhitespace(c: char) {
    || c == ' ' || c == '\t' || c == '\n' || c == '\r'
    || c == '\U{000B}' || c == '\U{000C}' || c == '\U{00A0}' || c == '\U{1680}'
    || ('\U{2000}' <= c <= '\U{200A}')
    || c == '\U{2028}' || c == '\U{2029}' || c == '\U{202F}' || c == '\U{205F}'
    || c == '\U{3000}' || c == '\U{FEFF}'
  }

  predicate AllWhitespace(s: string) {
    forall k :: 0 <= k < |s| ==> IsJsWhitespace(s[k])
  }

  /** The first index at or after `k` whose character is not whitespace, or `|s|`. */
  function SkipLeading(s: string, k: nat): (n: nat)
    requires k <= |s|
    ensures k <= n <= |s|
    ensures forall j :: k <= j < n ==> IsJsWhitespace(s[j])
    ensures n < |s| ==> !IsJsWhitespace(s[n])
    decreases |s| - k
  {
    if k < |s| && IsJsWhitespace(s[k]) then SkipLeading(s, k + 1) else k
  }

  /** The end of `s[lo..hi]` once its trailing whitespace is dropped. */
  function SkipTrailing(s: string, lo: nat, hi: nat): (n: nat)
    requires lo <= hi <= |s|
    ensures lo <= n <= hi
    ensures forall j :: n <= j < hi ==> IsJsWhitespace(s[j])
    ensures n > lo ==> !IsJsWhitespace(s[n - 1])
    decreases hi - lo
  {
    if lo < hi && IsJsWhitespace(s[hi - 1]) then SkipTrailing(s, lo, hi - 1) else hi
  }

  /**
   * `s.trim()`: the slice of `s` left once the whitespace at both ends is
   * cut; everything cut is whitespace, and what is left neither starts
   * nor ends with whitespace.
   */
  function Trim(s: string): (r: string)
    ensures exists lo, hi :: (
      && 0 <= lo <= hi <= |s| && r == s[lo..hi]
      && (forall j :: 0 <= j < lo ==> IsJsWhitespace(s[j]))
      && (forall j :: hi <= j < |s| ==> IsJsWhitespace(s[j])))
    ensures r == [] || (!IsJsWhitespace(r[0]) && !IsJsWhitespace(r[|r| - 1]))
  {
    var lo := SkipLeading(s, 0);
    var hi := SkipTrailing(s, lo, |s|);
    s[lo..hi]
  }

  /** Trimming is idempotent. */
  lemma TrimIdempotent(s: string)
    ensures Trim(Trim(s)) == Trim(s)
  {
  }

  /** A string trims to empty exactly when every character is whitespace. */
  lemma TrimEmptyIffBlank(s: string)
    ensures Trim(s) == [] <==> AllWhitespace(s)
  {
  }
}
