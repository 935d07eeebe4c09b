// Shared vocabulary: an Option type and the handful of JavaScript string
// operations the launcher relies on (trim, toLowerCase, startsWith,
// includes, parseInt and number-to-text conversion).
module Common {

  datatype Option<T> = None | Some(value: T) {
    function GetOr(default: T): T {
      if Some? then value else default
    }
  }

  // ---------------------------------------------------------------------
  // String.prototype.trim

  /**
   * The characters that `trim` strips: the ECMAScript white space (tab,
   * vertical tab, form feed, space, no-break space, the byte order mark and
   * the space separators of Unicode category Zs) and the line terminators.
   */
  predicate IsSpace(c: char) {
    c == ' ' || c == '\t' || c == '\n' || c == '\r' || c == '\U{0B}' || c == '\U{0C}'
    || c == '\U{A0}' || c == '\U{1680}' || '\U{2000}' <= c <= '\U{200A}'
    || c == '\U{2028}' || c == '\U{2029}' || c == '\U{202F}' || c == '\U{205F}'
    || c == '\U{3000}' || c == '\U{FEFF}'
  }

  predicate AllSpace(s: string) {
    forall i :: 0 <= i < |s| ==> IsSpace(s[i])
  }

  function TrimStart(s: string): (r: string)
    ensures |r| <= |s| && r == s[|s| - |r|..]
    ensures r == [] || !IsSpace(r[0])
    ensures AllSpace(s[..|s| - |r|])
  {
    if |s| > 0 && IsSpace(s[0]) then TrimStart(s[1..]) else s
  }

  function TrimEnd(s: string): (r: string)
    ensures |r| <= |s| && r == s[..|r|]
    ensures r == [] || !IsSpace(r[|r| - 1])
    ensures AllSpace(s[|r|..])
  {
    if |s| > 0 && IsSpace(s[|s| - 1]) then
      var r := TrimEnd(s[..|s| - 1]);
      assert s[|r|..] == s[..|s| - 1][|r|..] + [s[|s| - 1]];
      r
    else s
  }

  /** `s.trim()`: the text without leading and trailing white space. */
  function Trim(s: string): string {
    TrimEnd(TrimStart(s))
  }

  /** The trimmed text is a contiguous piece of the input. */
  lemma TrimIsInnerPiece(s: string)
    ensures exists i, j :: 0 <= i <= j <= |s| && Trim(s) == s[i..j]
  {
    var a := TrimStart(s);
    var b := TrimEnd(a);
    var i := |s| - |a|;
    assert b == s[i..][..|b|];
    assert s[i..][..|b|] == s[i..i + |b|];
    assert Trim(s) == s[i..i + |b|];
  }

  /** The trimmed text has no white space at either end. */
  lemma TrimHasNoOuterSpace(s: string)
    ensures Trim(s) == [] || (!IsSpace(Trim(s)[0]) && !IsSpace(Trim(s)[|Trim(s)| - 1]))
  {
    var a := TrimStart(s);
    var b := TrimEnd(a);
    if b != [] {
      assert b[0] == a[0];
    }
  }

  /** The trimmed text is empty exactly when the input consists of white space only. */
  lemma TrimEmptyIffAllSpace(s: string)
    ensures Trim(s) == [] <==> AllSpace(s)
  {
    var a := TrimStart(s);
    if Trim(s) == [] {
      assert AllSpace(a[0..]);
      assert s == s[..|s| - |a|] + a;
    }
  }

  // ---------------------------------------------------------------------
  // String.prototype.toLowerCase, for the one-to-one mappings of the Latin-1,
  // Latin Extended-A, Greek and Cyrillic capitals; every other character is
  // kept as it is

  /** The capitals of Latin Extended-A that pair with the next code point. */
  predicate PairedCapital(n: int) {
    (0x100 <= n <= 0x12F && n % 2 == 0) || (0x132 <= n <= 0x137 && n % 2 == 0)
    || (0x139 <= n <= 0x148 && n % 2 == 1) || (0x14A <= n <= 0x177 && n % 2 == 0)
    || (0x179 <= n <= 0x17E && n % 2 == 1)
  }

  function LowerChar(c: char): char {
    var n := c as int;
    if 'A' as int <= n <= 'Z' as int || (0xC0 <= n <= 0xDE && n != 0xD7)
       || (0x391 <= n <= 0x3AB && n != 0x3A2) || 0x410 <= n <= 0x42F then (n + 0x20) as char
    else if 0x400 <= n <= 0x40F then (n + 0x50) as char
    else if n == 0x386 then 0x3AC as char
    else if 0x388 <= n <= 0x38A then (n + 0x25) as char
    else if n == 0x38C then 0x3CC as char
    else if 0x38E <= n <= 0x38F then (n + 0x3F) as char
    else if n == 0x178 then 0xFF as char
    else if PairedCapital(n) then (n + 1) as char
    else c
  }

  function ToLower(s: string): (r: string)
    ensures |r| == |s|
    ensures forall i :: 0 <= i < |s| ==> r[i] == LowerChar(s[i])
  {
    seq(|s|, i requires 0 <= i < |s| => LowerChar(s[i]))
  }

  /** Lower-casing is idempotent. */
  lemma ToLowerIdempotent(s: string)
    ensures ToLower(ToLower(s)) == ToLower(s)
  {
  }

  // ---------------------------------------------------------------------
  // String.prototype.length

  /** The UTF-16 code units of one character: two for one beyond U+FFFF. */
  function Utf16Units(c: char): nat {
    if c as int <= 0xFFFF then 1 else 2
  }

  /**
   * `s.length`: JavaScript counts UTF-16 code units, so the length lies
   * between the number of characters and twice that, and equals the number
   * of characters when every one of them is in the Basic Multilingual Plane.
   */
  function Utf16Length(s: string): (n: nat)
    ensures |s| <= n <= 2 * |s|
    ensures (forall i | 0 <= i < |s| :: s[i] as int <= 0xFFFF) ==> n == |s|
    ensures (exists i | 0 <= i < |s| :: s[i] as int > 0xFFFF) ==> n > |s|
  {
    if s == [] then 0 else Utf16Units(s[0]) + Utf16Length(s[1..])
  }

  /** Replacing a character by one of the same width keeps the length. */
  lemma {:induction false} Utf16LengthUpdate(s: string, i: nat, c: char)
    requires i < |s| && Utf16Units(c) == Utf16Units(s[i])
    ensures Utf16Length(s[i := c]) == Utf16Length(s)
  {
    if i > 0 {
      assert s[i := c][1..] == s[1..][i - 1 := c];
      Utf16LengthUpdate(s[1..], i - 1, c);
    }
  }

  // ---------------------------------------------------------------------
  // startsWith and includes

  predicate StartsWith(s: string, prefix: string) {
    |prefix| <= |s| && s[..|prefix|] == prefix
  }

  predicate OccursAt(s: string, part: string, i: int) {
    0 <= i <= |s| - |part| && s[i..i + |part|] == part
  }

  /** `s.includes(part)`: `part` occurs in `s` at some position. */
  predicate Contains(s: string, part: string) {
    exists i :: 0 <= i <= |s| - |part| && OccursAt(s, part, i)
  }

  /** `s.lastIndexOf(c)`: the last position holding `c`; `None` stands for -1. */
  function LastIndexOf(s: string, c: char): (r: Option<nat>)
    ensures r.None? <==> forall i :: 0 <= i < |s| ==> s[i] != c
    ensures r.Some? ==> r.value < |s| && s[r.value] == c && forall i :: r.value < i < |s| ==> s[i] != c
  {
    if s == [] then None
    else if s[|s| - 1] == c then Some(|s| - 1)
    else LastIndexOf(s[..|s| - 1], c)
  }

  // ---------------------------------------------------------------------
  // Decimal text

  predicate IsDigit(c: char) {
    '0' <= c <= '9'
  }

  function DigitChar(d: nat): char
    requires d < 10
  {
    ('0' as int + d) as char
  }

  /** `String(n)` for a non-negative integer. */
  function NatToString(n: nat): (r: string)
    ensures |r| > 0
    ensures forall i :: 0 <= i < |r| ==> IsDigit(r[i])
    decreases n
  {
    if n < 10 then [DigitChar(n)] else NatToString(n / 10) + [DigitChar(n % 10)]
  }

  function DigitValue(c: char): nat
    requires IsDigit(c)
  {
    c as int - '0' as int
  }

  /** The value of a digit string read in base ten. */
  function DigitsValue(s: string): nat
    requires forall i :: 0 <= i < |s| ==> IsDigit(s[i])
  {
    if s == [] then 0 else 10 * DigitsValue(s[..|s| - 1]) + DigitValue(s[|s| - 1])
  }

  /** The length of the run of decimal digits at the start of `s`. */
  function LeadingDigits(s: string): (n: nat)
    ensures n <= |s|
    ensures forall i :: 0 <= i < n ==> IsDigit(s[i])
    ensures n == |s| || !IsDigit(s[n])
  {
    if |s| > 0 && IsDigit(s[0]) then 1 + LeadingDigits(s[1..]) else 0
  }

  /**
   * `parseInt(s)` on text that starts with decimal digits: the value of that
   * run of digits; `None` stands for `NaN`, which `parseInt` gives when the
   * text does not start with a digit.
   */
  function ParseInt(s: string): Option<nat> {
    var n := LeadingDigits(s);
    if n == 0 then None else Some(DigitsValue(s[..n]))
  }

  lemma {:induction false} DigitsValueOfNat(n: nat)
    ensures DigitsValue(NatToString(n)) == n
    decreases n
  {
    if n >= 10 {
      var r := NatToString(n);
      assert r[..|r| - 1] == NatToString(n / 10);
      DigitsValueOfNat(n / 10);
    }
  }

  lemma {:induction false} LeadingDigitsOfDigits(s: string)
    requires forall i :: 0 <= i < |s| ==> IsDigit(s[i])
    ensures LeadingDigits(s) == |s|
  {
    if |s| > 0 {
      LeadingDigitsOfDigits(s[1..]);
    }
  }

  /** Reading back the text of a number gives the number. */
  lemma ParseIntOfNatToString(n: nat)
    ensures ParseInt(NatToString(n)) == Some(n)
  {
    var r := NatToString(n);
    LeadingDigitsOfDigits(r);
    assert r[..|r|] == r;
    DigitsValueOfNat(n);
  }

  /** The digits of a number never contain a dot. */
  lemma NatToStringHasNoDot(n: nat)
    ensures forall i :: 0 <= i < |NatToString(n)| ==> NatToString(n)[i] != '.'
  {
  }

  // ---------------------------------------------------------------------
  // Array.prototype.filter

  /** `s.filter(keep)`: the elements that satisfy `keep`, in their original order. */
  function Filter<T>(s: seq<T>, keep: T -> bool): (r: seq<T>)
    ensures |r| <= |s|
  {
    if s == [] then [] else (if keep(s[0]) then [s[0]] else []) + Filter(s[1..], keep)
  }

  /** `a` can be obtained from `b` by deleting elements. */
  predicate IsSubsequence<T(==)>(a: seq<T>, b: seq<T>)
    decreases |b|
  {
    if a == [] then true
    else if b == [] then false
    else if a[0] == b[0] then IsSubsequence(a[1..], b[1..])
    else IsSubsequence(a, b[1..])
  }

  /** An element survives the filter exactly when it was there and satisfies `keep`. */
  lemma {:induction false} FilterMembership<T>(s: seq<T>, keep: T -> bool, x: T)
    ensures x in Filter(s, keep) <==> x in s && keep(x)
  {
    if s != [] {
      FilterMembership(s[1..], keep, x);
      assert s == [s[0]] + s[1..];
    }
  }

  /** Every element of the result satisfies `keep`. */
  lemma FilterAll<T>(s: seq<T>, keep: T -> bool)
    ensures forall x | x in Filter(s, keep) :: keep(x)
  {
    forall x | x in Filter(s, keep) ensures keep(x) {
      FilterMembership(s, keep, x);
    }
  }

  /** The filter keeps the relative order of the elements it keeps. */
  lemma {:induction false} FilterIsSubsequence<T>(s: seq<T>, keep: T -> bool)
    ensures IsSubsequence(Filter(s, keep), s)
  {
    if s != [] {
      FilterIsSubsequence(s[1..], keep);
      if keep(s[0]) {
        assert Filter(s, keep) == [s[0]] + Filter(s[1..], keep);
      } else {
        assert Filter(s, keep) == Filter(s[1..], keep);
        SubsequenceDropFront(Filter(s, keep), s);
      }
    }
  }

  lemma SubsequenceDropFront<T>(a: seq<T>, b: seq<T>)
    requires b != [] && IsSubsequence(a, b[1..])
    ensures IsSubsequence(a, b)
    decreases |b|, 1
  {
    if a != [] && a[0] == b[0] {
      SubsequenceTail(a, b[1..]);
    }
  }

  lemma SubsequenceTail<T>(a: seq<T>, c: seq<T>)
    requires a != [] && IsSubsequence(a, c)
    ensures IsSubsequence(a[1..], c)
    decreases |c|, 2
  {
    if a[0] != c[0] {
      SubsequenceTail(a, c[1..]);
    }
    if a[1..] != [] {
      SubsequenceDropFront(a[1..], c);
    }
  }

  /** Filtering a list whose every element satisfies `keep` changes nothing. */
  lemma {:induction false} FilterKeepsAll<T>(s: seq<T>, keep: T -> bool)
    requires forall x | x in s :: keep(x)
    ensures Filter(s, keep) == s
  {
    if s != [] {
      FilterKeepsAll(s[1..], keep);
      assert s == [s[0]] + s[1..];
    }
  }

  /** A second application of the same filter changes nothing. */
  lemma FilterIdempotent<T>(s: seq<T>, keep: T -> bool)
    ensures Filter(Filter(s, keep), keep) == Filter(s, keep)
  {
    FilterAll(s, keep);
    FilterKeepsAll(Filter(s, keep), keep);
  }

  /** Filtering distributes over concatenation. */
  lemma {:induction false} FilterAppend<T>(a: seq<T>, b: seq<T>, keep: T -> bool)
    ensures Filter(a + b, keep) == Filter(a, keep) + Filter(b, keep)
  {
    if a == [] {
      assert a + b == b;
    } else {
      var c := a + b;
      assert c[0] == a[0] && c[1..] == a[1..] + b;
      FilterAppend(a[1..], b, keep);
      var head := if keep(a[0]) then [a[0]] else [];
      calc {
        Filter(c, keep);
        head + Filter(a[1..] + b, keep);
        head + (Filter(a[1..], keep) + Filter(b, keep));
        (head + Filter(a[1..], keep)) + Filter(b, keep);
        Filter(a, keep) + Filter(b, keep);
      }
    }
  }

  /** `s.filter(p)[0]`, or nothing when no element satisfies `p`. */
  function FirstWhere<T>(s: seq<T>, p: T -> bool): Option<T> {
    var matching := Filter(s, p);
    if matching == [] then None else Some(matching[0])
  }

  /** `FirstWhere` yields the first element in list order that satisfies `p`. */
  lemma {:induction false} FirstWhereIsFirstMatch<T>(s: seq<T>, p: T -> bool)
    ensures FirstWhere(s, p).None? <==> forall i | 0 <= i < |s| :: !p(s[i])
    ensures FirstWhere(s, p).Some? ==>
      exists i | 0 <= i < |s| :: s[i] == FirstWhere(s, p).value && p(s[i]) && forall j | 0 <= j < i :: !p(s[j])
  {
    if s != [] {
      FirstWhereIsFirstMatch(s[1..], p);
      if !p(s[0]) {
        assert FirstWhere(s, p) == FirstWhere(s[1..], p);
        if FirstWhere(s, p).Some? {
          var i :| 0 <= i < |s[1..]| && s[1..][i] == FirstWhere(s, p).value
                   && p(s[1..][i]) && forall j | 0 <= j < i :: !p(s[1..][j]);
          assert s[i + 1] == s[1..][i];
          forall j | 0 <= j < i + 1 ensures !p(s[j]) {
            if j > 0 { assert s[j] == s[1..][j - 1]; }
          }
        } else {
          forall i | 0 <= i < |s| ensures !p(s[i]) {
            if i > 0 { assert s[i] == s[1..][i - 1]; }
          }
        }
      }
    }
  }

  /** The first match in `a + b` is the first match in `a`, or else the first in `b`. */
  lemma FirstWhereAppend<T>(a: seq<T>, b: seq<T>, p: T -> bool)
    ensures FirstWhere(a + b, p) == if FirstWhere(a, p).Some? then FirstWhere(a, p) else FirstWhere(b, p)
  {
    FilterAppend(a, b, p);
  }
}
