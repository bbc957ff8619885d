/**
  The parts of JavaScript's `String.prototype` and `Number` that the modelled
  code relies on, as functions over `seq<char>` (one char per UTF-16 code unit).
  Every other module states its behaviour in terms of these.
 */
module JsString {
  import opened Wrappers

  /** ECMAScript WhiteSpace and LineTerminator code points: what `trim()` removes. */
  predicate IsWhitespace(c: char) {
    var n := c as int;
    n == 0x09 || n == 0x0A || n == 0x0B || n == 0x0C || n == 0x0D || n == 0x20
    || n == 0xA0 || n == 0x1680 || (0x2000 <= n <= 0x200A) || n == 0x2028 || n == 0x2029
    || n == 0x202F || n == 0x205F || n == 0x3000 || n == 0xFEFF
  }

  predicate AllWhitespace(s: string) {
    forall i :: 0 <= i < |s| ==> IsWhitespace(s[i])
  }

  /** No whitespace at either end: what `trim()` leaves behind. */
  predicate IsTrimmed(s: string) {
    s == [] || (!IsWhitespace(s[0]) && !IsWhitespace(s[|s| - 1]))
  }

  /** Number of whitespace code units at the start of `s`. */
  function LeadingWhitespace(s: string): (n: nat)
    ensures n <= |s|
    ensures forall i :: 0 <= i < n ==> IsWhitespace(s[i])
    ensures n < |s| ==> !IsWhitespace(s[n])
  {
    if |s| > 0 && IsWhitespace(s[0]) then 1 + LeadingWhitespace(s[1..]) else 0
  }

  /** Number of whitespace code units at the end of `s`. */
  function TrailingWhitespace(s: string): (n: nat)
    ensures n <= |s|
    ensures forall i :: |s| - n <= i < |s| ==> IsWhitespace(s[i])
    ensures n < |s| ==> !IsWhitespace(s[|s| - 1 - n])
  {
    if |s| > 0 && IsWhitespace(s[|s| - 1]) then 1 + TrailingWhitespace(s[..|s| - 1]) else 0
  }

  /** `String.prototype.trimEnd` */
  function TrimEnd(s: string): (r: string)
    ensures |r| <= |s| && r == s[..|r|]
    ensures r == [] || !IsWhitespace(r[|r| - 1])
    ensures forall i :: |r| <= i < |s| ==> IsWhitespace(s[i])
  {
    s[..|s| - TrailingWhitespace(s)]
  }

  /** `String.prototype.trim`: whitespace removed from both ends, nothing else touched. */
  function Trim(s: string): (r: string)
    ensures IsTrimmed(r)
    ensures |r| <= |s|
    ensures r == [] <==> AllWhitespace(s)
  {
    var k := LeadingWhitespace(s);
    TrimEnd(s[k..])
  }

  /** A string with no whitespace at its ends is its own trim. */
  lemma TrimOfTrimmed(s: string)
    requires IsTrimmed(s)
    ensures Trim(s) == s
  {
    if s != [] {
      assert LeadingWhitespace(s) == 0;
      assert TrailingWhitespace(s) == 0;
    }
  }

  /** `trim()` is idempotent. */
  lemma TrimIdempotent(s: string)
    ensures Trim(Trim(s)) == Trim(s)
  {
    TrimOfTrimmed(Trim(s));
  }

  /** Trimming the end of `p + q` keeps all of `p` when `p` ends in a non-blank character. */
  lemma TrimEndKeepsPrefix(p: string, q: string)
    requires p != [] && !IsWhitespace(p[|p| - 1])
    ensures StartsWith(TrimEnd(p + q), p)
  {
    var s := p + q;
    var r := TrimEnd(s);
    assert s[|p| - 1] == p[|p| - 1];
    assert |p| <= |r|;
    assert r[..|p|] == s[..|p|] == p;
  }

  /** `Trim` of a string that starts with a non-blank character only trims its end. */
  lemma TrimOfNonBlankStart(s: string)
    requires s != [] && !IsWhitespace(s[0])
    ensures Trim(s) == TrimEnd(s)
  {
    assert LeadingWhitespace(s) == 0;
    assert s[0..] == s;
  }

  predicate StartsWith(s: string, p: string) {
    |p| <= |s| && s[..|p|] == p
  }

  predicate EndsWith(s: string, p: string) {
    |p| <= |s| && s[|s| - |p|..] == p
  }

  lemma EndsWithConcat(a: string, b: string)
    ensures EndsWith(a + b, b)
  {
    assert (a + b)[|a|..] == b;
  }

  /** `p` occurs in `s` starting at index `i`. */
  predicate HasAt(s: string, p: string, i: int) {
    0 <= i && i + |p| <= |s| && s[i..i + |p|] == p
  }

  /** `String.prototype.includes` */
  predicate Includes(s: string, p: string) {
    exists i :: 0 <= i <= |s| - |p| && HasAt(s, p, i)
  }

  /** The last index `j <= i` at which `p` occurs in `s`, or -1. */
  function LastIndexAtOrBefore(s: string, p: string, i: int): (r: int)
    ensures r == -1 || (0 <= r <= i && HasAt(s, p, r))
    ensures forall j :: r < j <= i ==> !HasAt(s, p, j)
    decreases i + 1
  {
    if i < 0 then -1
    else if HasAt(s, p, i) then i
    else LastIndexAtOrBefore(s, p, i - 1)
  }

  /** `String.prototype.lastIndexOf` */
  function LastIndexOf(s: string, p: string): int {
    LastIndexAtOrBefore(s, p, |s| - |p|)
  }

  /** Index of the first `c` in `s`. */
  function IndexOf(s: string, c: char): (r: Option<nat>)
    ensures r.None? ==> c !in s
    ensures r.Some? ==> r.value < |s| && s[r.value] == c && c !in s[..r.value]
  {
    if |s| == 0 then None
    else if s[0] == c then Some(0)
    else match IndexOf(s[1..], c)
      case None => None
      case Some(k) => assert s[..k + 1] == [s[0]] + s[1..][..k]; Some(k + 1)
  }

  /** `IndexOf` finds the first occurrence. */
  lemma {:induction false} IndexOfFirst(s: string, c: char, i: nat)
    requires i < |s| && s[i] == c && c !in s[..i]
    ensures IndexOf(s, c) == Some(i)
  {
    if i > 0 {
      assert s[0] == s[..i][0];
      assert s[1..][..i - 1] == s[1..i];
      assert forall x :: x in s[1..i] ==> x in s[..i];
      IndexOfFirst(s[1..], c, i - 1);
    }
  }

  /** A relative index of `String.prototype.slice` resolved against a length. */
  function SliceIndex(i: int, len: nat): (r: nat)
    ensures r <= len
    ensures 0 <= i <= len ==> r == i
    ensures i < 0 && -i <= len ==> r == len + i
  {
    if i < 0 then (if len + i < 0 then 0 else len + i)
    else if i > len then len
    else i
  }

  /** `String.prototype.slice(start, end)`, negative indices counting from the end. */
  function Slice(s: string, start: int, end: int): (r: string)
    ensures |r| <= |s|
  {
    var a := SliceIndex(start, |s|);
    var b := SliceIndex(end, |s|);
    if a < b then s[a..b] else []
  }

  /** `slice(1, -1)` drops one character at each end, or yields "" when there are fewer than two. */
  lemma SliceOneEachEnd(s: string)
    ensures |s| >= 2 ==> Slice(s, 1, -1) == s[1..|s| - 1]
    ensures |s| < 2 ==> Slice(s, 1, -1) == []
  {
  }

  /** An ASCII capital letter folded to lower case; every other character unchanged. */
  function LowerChar(c: char): char {
    if 'A' <= c <= 'Z' then (c as int + 32) as char else c
  }

  /** ASCII letters folded to lower case: what a case-insensitive regular expression compares. */
  function LowerAscii(s: string): (r: string) {
    seq(|s|, i requires 0 <= i < |s| => LowerChar(s[i]))
  }

  /** Case-insensitive equality of two strings, ASCII letters only. */
  predicate EqualsIgnoringCase(a: string, b: string) {
    LowerAscii(a) == LowerAscii(b)
  }

  /** A string without upper-case ASCII letters is its own lower-case form. */
  lemma LowerAsciiOfLower(s: string)
    requires forall i :: 0 <= i < |s| ==> !('A' <= s[i] <= 'Z')
    ensures LowerAscii(s) == s
  {
    assert forall i :: 0 <= i < |s| ==> LowerAscii(s)[i] == s[i];
  }

  // ---------------------------------------------------------------- numbers

  predicate IsDigit(c: char) {
    '0' <= c <= '9'
  }

  predicate AllDigits(s: string) {
    forall i :: 0 <= i < |s| ==> IsDigit(s[i])
  }

  function DigitChar(d: nat): (c: char)
    requires d < 10
    ensures IsDigit(c) && (c as int) - ('0' as int) == d
  {
    ((d + '0' as int) as char)
  }

  /** Decimal rendering of a natural number, as `String(n)` gives it. */
  function NatToString(n: nat): (r: string)
    ensures |r| > 0 && AllDigits(r)
  {
    if n < 10 then [DigitChar(n)] else NatToString(n / 10) + [DigitChar(n % 10)]
  }

  /** Decimal rendering of an integer, as a template literal `${n}` gives it. */
  function IntToString(n: int): (r: string)
    ensures |r| > 0 && IsTrimmed(r)
  {
    if n < 0 then "-" + NatToString(-n) else NatToString(n)
  }

  /** The value of a string of decimal digits. */
  function DecimalValue(s: string): nat
    requires AllDigits(s)
  {
    if |s| == 0 then 0
    else 10 * DecimalValue(s[..|s| - 1]) + ((s[|s| - 1] as int) - ('0' as int))
  }

  /** Reading back a rendered natural number gives the number. */
  lemma {:induction false} DecimalValueOfNatToString(n: nat)
    ensures DecimalValue(NatToString(n)) == n
  {
    if n >= 10 {
      DecimalValueOfNatToString(n / 10);
      var s := NatToString(n);
      assert s[..|s| - 1] == NatToString(n / 10);
    }
  }

  /**
    `Number(s)` for the strings the modelled code compares: surrounding
    whitespace is ignored, the empty string is 0, an optional sign followed by
    decimal digits is that integer, and anything else is `NaN` (`None`).
   */
  function ToNumber(s: string): Option<int> {
    var t := Trim(s);
    if t == [] then Some(0)
    else if AllDigits(t) then Some(DecimalValue(t))
    else if |t| > 1 && (t[0] == '-' || t[0] == '+') && AllDigits(t[1..]) then
      var v: int := DecimalValue(t[1..]);
      Some(if t[0] == '-' then -v else v)
    else None
  }

  /** `Number(String(n)) === n`: rendering then reading an integer is the identity. */
  lemma ToNumberOfIntToString(n: int)
    ensures ToNumber(IntToString(n)) == Some(n)
  {
    var s := IntToString(n);
    TrimOfTrimmed(s);
    if n < 0 {
      DecimalValueOfNatToString(-n);
      assert s[1..] == NatToString(-n);
      assert !IsDigit(s[0]);
    } else {
      DecimalValueOfNatToString(n);
    }
  }

  // ---------------------------------------------------------------- ordering

  /**
    Lexicographic order on code units. It stands in for `localeCompare`, whose
    collation depends on the locale; only its being a strict total order is used.
   */
  predicate CodeUnitLess(a: string, b: string)
    decreases |a|
  {
    |b| > 0 && (|a| == 0 || a[0] < b[0] || (a[0] == b[0] && CodeUnitLess(a[1..], b[1..])))
  }

  lemma {:induction false} CodeUnitLessIrreflexive(a: string)
    ensures !CodeUnitLess(a, a)
  {
    if |a| > 0 {
      CodeUnitLessIrreflexive(a[1..]);
    }
  }

  lemma {:induction false} CodeUnitLessTransitive(a: string, b: string, c: string)
    requires CodeUnitLess(a, b) && CodeUnitLess(b, c)
    ensures CodeUnitLess(a, c)
    decreases |a|
  {
    if |a| > 0 && a[0] == b[0] && b[0] == c[0] {
      CodeUnitLessTransitive(a[1..], b[1..], c[1..]);
    }
  }

  lemma {:induction false} CodeUnitLessAsymmetric(a: string, b: string)
    requires CodeUnitLess(a, b)
    ensures !CodeUnitLess(b, a)
    decreases |a|
  {
    if |a| > 0 && a[0] == b[0] {
      CodeUnitLessAsymmetric(a[1..], b[1..]);
    }
  }

  lemma {:induction false} CodeUnitLessTotal(a: string, b: string)
    requires a != b
    ensures CodeUnitLess(a, b) || CodeUnitLess(b, a)
    decreases |a|
  {
    if |a| > 0 && |b| > 0 && a[0] == b[0] {
      assert a == [a[0]] + a[1..] && b == [b[0]] + b[1..];
      CodeUnitLessTotal(a[1..], b[1..]);
    }
  }
}
