/**
 * Value-level helpers shared by every other module: the Option and Result
 * wrappers, bytes, and the few JavaScript string and array primitives the
 * server relies on (String.prototype.split with a one-character separator,
 * indexOf, Array.prototype.splice with a delete count of one, parseInt,
 * Number-to-string, and the case mappings the server applies).
 */
module Common {

  datatype Option<+T> = None | Some(value: T) {
    function GetOr(default: T): T {
      match this
      case Some(v) => v
      case None => default
    }
  }

  datatype Result<+R, +E> = Success(value: R) | Failure(error: E)

  /** One octet, as held by a Node.js Buffer. */
  newtype Byte = x: int | 0 <= x < 256

  function Min(a: int, b: int): int { if a <= b then a else b }

  // ---------------------------------------------------------------------
  // String.prototype.split with a one-character separator
  // ---------------------------------------------------------------------

  /** The inverse of Split: the pieces glued back together by `sep`. */
  function Join(pieces: seq<string>, sep: char): string
    requires |pieces| >= 1
  {
    if |pieces| == 1 then pieces[0] else pieces[0] + [sep] + Join(pieces[1..], sep)
  }

  /**
   * `s.split(sep)`: the maximal runs of characters between separators. There
   * is always at least one piece ("" splits into [""]), no piece contains the
   * separator, and joining the pieces gives back `s`.
   */
  function Split(s: string, sep: char): (r: seq<string>)
    ensures |r| >= 1
    ensures forall k | 0 <= k < |r| :: sep !in r[k]
    ensures Join(r, sep) == s
    decreases |s|
  {
    if s == [] then [[]]
    else
      var rest := Split(s[1..], sep);
      if s[0] == sep then
        assert [s[0]] + Join(rest, sep) == s;
        [[]] + rest
      else
        var r := [[s[0]] + rest[0]] + rest[1..];
        assert r[1..] == rest[1..];
        assert Join(r, sep) == [s[0]] + Join(rest, sep);
        assert [s[0]] + s[1..] == s;
        r
  }

  lemma {:induction false} SplitPiece(p: string, t: string, sep: char)
    requires sep !in p
    ensures Split(p + [sep] + t, sep) == [p] + Split(t, sep)
    decreases |p|
  {
    var s := p + [sep] + t;
    if p == [] {
      assert s[0] == sep && s[1..] == t;
    } else {
      assert s[0] == p[0] && s[1..] == p[1..] + [sep] + t;
      SplitPiece(p[1..], t, sep);
      assert [p[0]] + p[1..] == p;
    }
  }

  lemma {:induction false} SplitNoSeparator(p: string, sep: char)
    requires sep !in p
    ensures Split(p, sep) == [p]
    decreases |p|
  {
    if p != [] {
      SplitNoSeparator(p[1..], sep);
      assert [p[0]] + p[1..] == p;
    }
  }

  /** Splitting what Join produced recovers the pieces exactly. */
  lemma {:induction false} SplitJoin(pieces: seq<string>, sep: char)
    requires |pieces| >= 1
    requires forall k | 0 <= k < |pieces| :: sep !in pieces[k]
    ensures Split(Join(pieces, sep), sep) == pieces
    decreases |pieces|
  {
    if |pieces| == 1 {
      SplitNoSeparator(pieces[0], sep);
    } else {
      SplitJoin(pieces[1..], sep);
      SplitPiece(pieces[0], Join(pieces[1..], sep), sep);
      assert [pieces[0]] + pieces[1..] == pieces;
    }
  }

  // ---------------------------------------------------------------------
  // String.prototype.indexOf and Array.prototype.indexOf
  // ---------------------------------------------------------------------

  predicate OccursAt(s: string, t: string, k: int) {
    0 <= k && k + |t| <= |s| && s[k..k + |t|] == t
  }

  function IndexOfFrom(s: string, t: string, from: nat): (r: int)
    requires from <= |s| + 1
    ensures r == -1 || (from <= r && OccursAt(s, t, r))
    ensures r == -1 ==> forall k | from <= k :: !OccursAt(s, t, k)
    ensures r != -1 ==> forall k | from <= k < r :: !OccursAt(s, t, k)
    decreases |s| + 1 - from
  {
    if from + |t| > |s| then -1
    else if s[from..from + |t|] == t then from
    else IndexOfFrom(s, t, from + 1)
  }

  /** `s.indexOf(t)`: the first position at which `t` occurs in `s`, or -1. */
  function IndexOf(s: string, t: string): (r: int)
    ensures r == -1 <==> forall k :: !OccursAt(s, t, k)
    ensures r != -1 ==> OccursAt(s, t, r) && forall k | 0 <= k < r :: !OccursAt(s, t, k)
  {
    IndexOfFrom(s, t, 0)
  }

  function FirstIndexFrom<T(==)>(s: seq<T>, x: T, from: nat): (r: int)
    requires from <= |s|
    ensures r == -1 <==> x !in s[from..]
    ensures r != -1 ==> from <= r < |s| && s[r] == x && x !in s[from..r]
    decreases |s| - from
  {
    if from == |s| then -1
    else if s[from] == x then from
    else
      var r := FirstIndexFrom(s, x, from + 1);
      assert s[from..] == [s[from]] + s[from + 1..];
      assert r != -1 ==> s[from..r] == [s[from]] + s[from + 1..r];
      r
  }

  /** `a.indexOf(x)` on an array: the first index holding `x`, or -1. */
  function FirstIndex<T(==)>(s: seq<T>, x: T): (r: int)
    ensures r == -1 <==> x !in s
    ensures r != -1 ==> 0 <= r < |s| && s[r] == x && x !in s[..r]
  {
    assert s[0..] == s;
    FirstIndexFrom(s, x, 0)
  }

  /**
   * `a.splice(start, 1)`: a negative start counts from the end (and is
   * floored at 0), a start at or past the end removes nothing.
   */
  function SpliceOne<T>(s: seq<T>, start: int): (r: seq<T>)
    ensures 0 <= start < |s| ==> r == s[..start] + s[start + 1..]
    ensures start >= |s| ==> r == s
    ensures start < 0 && |s| + start >= 0 && s != [] ==> r == s[..|s| + start] + s[|s| + start + 1..]
  {
    var k := if start < 0 then (if |s| + start < 0 then 0 else |s| + start)
             else (if start > |s| then |s| else start);
    if k < |s| then s[..k] + s[k + 1..] else s
  }

  // ---------------------------------------------------------------------
  // Number to string, parseInt
  // ---------------------------------------------------------------------

  predicate IsDigit(c: char) { '0' <= c <= '9' }

  function DigitChar(d: nat): (c: char)
    requires d < 10
    ensures IsDigit(c)
  {
    ('0' as int + d) as char
  }

  /** The decimal numeral of `n`, as `String(n)` writes it (no leading zeros). */
  function NatToString(n: nat): (r: string)
    ensures |r| >= 1
    ensures forall k | 0 <= k < |r| :: IsDigit(r[k])
  {
    if n < 10 then [DigitChar(n)] else NatToString(n / 10) + [DigitChar(n % 10)]
  }

  /**
   * The StrWhiteSpaceChar set of ECMAScript: white space and line
   * terminators, which parseInt skips at the start of its argument.
   */
  predicate IsStrWhiteSpace(c: char) {
    c == '\U{0009}' || c == '\U{000A}' || c == '\U{000B}' || c == '\U{000C}' || c == '\U{000D}'
    || c == ' ' || c == '\U{00A0}' || c == '\U{1680}' || ('\U{2000}' <= c <= '\U{200A}')
    || c == '\U{2028}' || c == '\U{2029}' || c == '\U{202F}' || c == '\U{205F}'
    || c == '\U{3000}' || c == '\U{FEFF}'
  }

  function TrimStart(s: string): (r: string)
    ensures r == [] || !IsStrWhiteSpace(r[0])
    ensures |r| <= |s| && r == s[|s| - |r|..]
  {
    if s != [] && IsStrWhiteSpace(s[0]) then TrimStart(s[1..]) else s
  }

  /** The value of a digit in radices up to 36, or 36 for a non-digit. */
  function DigitValue(c: char): nat {
    if '0' <= c <= '9' then c as nat - '0' as nat
    else if 'a' <= c <= 'z' then c as nat - 'a' as nat + 10
    else if 'A' <= c <= 'Z' then c as nat - 'A' as nat + 10
    else 36
  }

  /** The longest prefix of `s` made of digits of the given radix. */
  function DigitPrefix(s: string, radix: nat): (r: string)
    ensures |r| <= |s| && r == s[..|r|]
    ensures forall k | 0 <= k < |r| :: DigitValue(r[k]) < radix
    ensures |r| < |s| ==> DigitValue(s[|r|]) >= radix
  {
    if s == [] || DigitValue(s[0]) >= radix then []
    else [s[0]] + DigitPrefix(s[1..], radix)
  }

  /** The number a string of radix digits denotes, most significant first. */
  function DigitsValue(z: string, radix: nat): nat {
    if z == [] then 0 else DigitsValue(z[..|z| - 1], radix) * radix + DigitValue(z[|z| - 1])
  }

  /** The digits at the start of `v` in the given radix, or NaN when there are none. */
  function LeadingNumber(v: string, radix: nat): Option<nat> {
    var z := DigitPrefix(v, radix);
    if z == [] then None else Some(DigitsValue(z, radix))
  }

  predicate HasHexPrefix(u: string) {
    |u| >= 2 && u[0] == '0' && (u[1] == 'x' || u[1] == 'X')
  }

  /** An unsigned numeral: a "0x"/"0X" prefix switches to radix 16. */
  function ParseUnsigned(u: string): Option<nat> {
    if HasHexPrefix(u) then LeadingNumber(u[2..], 16) else LeadingNumber(u, 10)
  }

  /** An optionally signed numeral, after the leading white space. */
  function ParseSigned(t: string): Option<int> {
    if t != [] && (t[0] == '-' || t[0] == '+') then
      match ParseUnsigned(t[1..])
      case None => None
      case Some(v) => Some(if t[0] == '-' then -(v as int) else v as int)
    else
      match ParseUnsigned(t)
      case None => None
      case Some(v) => Some(v as int)
  }

  /**
   * `parseInt(s)` with no radix: skip leading white space, take an optional
   * sign, then read an unsigned numeral; no digits at all gives NaN (None).
   * Negative zero is 0.
   */
  function ParseInt(s: string): Option<int> {
    ParseSigned(TrimStart(s))
  }

  lemma {:induction false} DigitPrefixOfDigits(s: string)
    requires forall k | 0 <= k < |s| :: IsDigit(s[k])
    ensures DigitPrefix(s, 10) == s
    decreases |s|
  {
    if s != [] {
      DigitPrefixOfDigits(s[1..]);
      assert [s[0]] + s[1..] == s;
    }
  }

  lemma {:induction false} DigitsValueOfNatToString(n: nat)
    ensures DigitsValue(NatToString(n), 10) == n
  {
    if n >= 10 {
      DigitsValueOfNatToString(n / 10);
      var z := NatToString(n);
      assert z[..|z| - 1] == NatToString(n / 10);
    }
  }

  lemma ParseIntOfDigits(s: string)
    requires s != [] && forall k | 0 <= k < |s| :: IsDigit(s[k])
    ensures ParseInt(s) == Some(DigitsValue(s, 10) as int)
  {
    DigitStart(s);
    assert !HasHexPrefix(s) by {
      if |s| >= 2 { assert IsDigit(s[1]); }
    }
    DigitPrefixOfDigits(s);
    assert ParseUnsigned(s) == Some(DigitsValue(s, 10));
  }

  /** A numeral that starts with a digit has no white space or sign to skip. */
  lemma DigitStart(s: string)
    requires s != [] && IsDigit(s[0])
    ensures TrimStart(s) == s && s[0] != '-' && s[0] != '+'
  {
    assert !IsStrWhiteSpace(s[0]);
  }

  /** parseInt reads back exactly the number String(n) wrote. */
  lemma ParseIntNatToString(n: nat)
    ensures ParseInt(NatToString(n)) == Some(n)
  {
    ParseIntOfDigits(NatToString(n));
    DigitsValueOfNatToString(n);
  }

  /** Distinct numbers have distinct numerals. */
  lemma NatToStringInjective(a: nat, b: nat)
    requires NatToString(a) == NatToString(b)
    ensures a == b
  {
    ParseIntNatToString(a);
    ParseIntNatToString(b);
  }

  /** parseInt of a one-character string is that digit's value, or NaN. */
  lemma ParseIntOneChar(c: char)
    ensures ParseInt([c]) == if IsDigit(c) then Some(c as int - '0' as int) else None
  {
    if IsDigit(c) {
      ParseIntOfDigits([c]);
      assert DigitsValue([c], 10) == DigitValue(c) by { assert [c][..0] == []; }
    } else {
      ParseIntNonDigit(c);
    }
  }

  lemma ParseIntNonDigit(c: char)
    requires !IsDigit(c)
    ensures ParseInt([c]) == None
  {
    if IsStrWhiteSpace(c) {
      TrimStartBlank(c);
      assert ParseSigned([]) == None;
    } else {
      assert TrimStart([c]) == [c];
      ParseSignedNonDigit(c);
    }
  }

  lemma TrimStartBlank(c: char)
    requires IsStrWhiteSpace(c)
    ensures TrimStart([c]) == []
  {
    assert [c][1..] == [];
  }

  lemma ParseSignedNonDigit(c: char)
    requires !IsDigit(c)
    ensures ParseSigned([c]) == None
  {
    if c == '-' || c == '+' {
      assert [c][1..] == [];
    } else {
      assert !HasHexPrefix([c]);
      assert DigitValue(c) >= 10;
      assert DigitPrefix([c], 10) == [];
    }
  }

  // ---------------------------------------------------------------------
  // Case mappings
  // ---------------------------------------------------------------------

  /**
   * `toLowerCase` on one character, for the characters that can lower-case
   * to an ASCII character: A-Z, and the Kelvin sign U+212A, which lower-cases
   * to 'k'. Every other character is left as it is.
   */
  function LowerChar(c: char): char {
    if 'A' <= c <= 'Z' then (c as int + 32) as char
    else if c == '\U{212A}' then 'k'
    else c
  }

  /**
   * `toLowerCase`: the length is kept, no upper-case letter is left, and
   * every character that is not one keeps its place unchanged.
   */
  function Lower(s: string): (r: string)
    ensures |r| == |s|
    ensures forall k | 0 <= k < |r| :: !('A' <= r[k] <= 'Z') && r[k] != '\U{212A}'
    ensures forall k | 0 <= k < |s| :: !('A' <= s[k] <= 'Z') && s[k] != '\U{212A}' ==> r[k] == s[k]
  {
    seq(|s|, k requires 0 <= k < |s| => LowerChar(s[k]))
  }

  /** Lower-casing twice is lower-casing once. */
  lemma LowerIdempotent(s: string)
    ensures Lower(Lower(s)) == Lower(s)
  {
    var t := Lower(s);
    assert forall k | 0 <= k < |t| :: Lower(t)[k] == t[k];
  }

  /**
   * `toUpperCase` on one character, for the characters that can upper-case
   * to an ASCII letter: a-z, and the long s U+017F, which upper-cases to 'S'.
   * Every other character is left as it is.
   */
  function UpperChar(c: char): char {
    if 'a' <= c <= 'z' then (c as int - 32) as char
    else if c == '\U{017F}' then 'S'
    else c
  }
}
