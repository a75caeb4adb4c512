/**
 * String helpers with Python's meaning: decimal digits and `str(int)`, `%02d`,
 * `str.strip()` over Python's whitespace set, `str.startswith`, `in` on
 * strings, `str.split(sep)` and `sep.join(parts)`.
 */
module Text {

  predicate IsDigit(c: char) { '0' <= c <= '9' }

  predicate AllDigits(s: string) { forall i :: 0 <= i < |s| ==> IsDigit(s[i]) }

  function DigitValue(c: char): nat
    requires IsDigit(c)
  {
    (c as int) - ('0' as int)
  }

  function DigitChar(d: nat): (c: char)
    requires d < 10
    ensures IsDigit(c) && DigitValue(c) == d
  {
    ('0' as int + d) as char
  }

  /** `int(s)` for a run of ASCII digits. */
  function DigitsValue(s: string): nat
    requires AllDigits(s)
  {
    if s == [] then 0 else 10 * DigitsValue(s[..|s| - 1]) + DigitValue(s[|s| - 1])
  }

  /** `str(n)` for a non-negative integer: canonical decimal that reads back as `n`. */
  function NatToString(n: nat): (r: string)
    ensures 1 <= |r| && AllDigits(r)
    ensures DigitsValue(r) == n
    ensures |r| == 1 || r[0] != '0'
  {
    if n < 10 then [DigitChar(n)]
    else
      var r := NatToString(n / 10) + [DigitChar(n % 10)];
      assert r[..|r| - 1] == NatToString(n / 10);
      r
  }

  /** `str(i)` for any integer. */
  function IntToString(i: int): (r: string)
    ensures 1 <= |r|
    ensures i < 0 <==> r[0] == '-'
  {
    if i < 0 then "-" + NatToString(-i) else NatToString(i)
  }

  function Pow10(k: nat): nat
  {
    if k == 0 then 1 else 10 * Pow10(k - 1)
  }

  /** Reading digits written one after the other: the left part is scaled by the length of the right one. */
  lemma {:induction false} DigitsValueAppend(x: string, y: string)
    requires AllDigits(x) && AllDigits(y)
    ensures AllDigits(x + y)
    ensures DigitsValue(x + y) == DigitsValue(x) * Pow10(|y|) + DigitsValue(y)
  {
    var xy := x + y;
    forall i | 0 <= i < |xy| ensures IsDigit(xy[i]) {
      if i < |x| {
        assert xy[i] == x[i];
      } else {
        assert xy[i] == y[i - |x|];
      }
    }
    if y == [] {
      assert xy == x;
    } else {
      var y' := y[..|y| - 1];
      var last := y[|y| - 1];
      assert xy[..|xy| - 1] == x + y';
      assert xy[|xy| - 1] == last;
      DigitsValueAppend(x, y');
      assert DigitsValue(xy) == 10 * DigitsValue(x + y') + DigitValue(last);
      ShiftDigit(DigitsValue(x), Pow10(|y'|), DigitsValue(y'), DigitValue(last));
    }
  }

  /** The arithmetic step of appending one digit to the right part. */
  lemma ShiftDigit(dx: int, p: int, dy: int, d: int)
    ensures 10 * (dx * p + dy) + d == dx * (10 * p) + (10 * dy + d)
  {
    assert 10 * (dx * p) == dx * (10 * p);
  }

  /** `"%03d" % n`: three zero-padded digits. */
  function Digits3(n: nat): (r: string)
    requires n < 1000
    ensures |r| == 3 && AllDigits(r) && DigitsValue(r) == n
  {
    var a, b, c := n / 100, n / 10 % 10, n % 10;
    var r := [DigitChar(a), DigitChar(b), DigitChar(c)];
    assert r[..2][..1] == r[..1] && r[..1][..0] == [];
    assert DigitsValue(r[..1]) == a;
    assert DigitsValue(r[..2]) == 10 * a + b;
    assert DigitsValue(r) == 100 * a + 10 * b + c;
    r
  }

  /** `"%02d" % n` for a non-negative `n`. */
  function Pad2(n: nat): (r: string)
    ensures AllDigits(r) && DigitsValue(r) == n
    ensures n < 100 ==> |r| == 2
  {
    if n < 10 then
      var r := "0" + NatToString(n);
      assert r[..|r| - 1] == "0";
      assert DigitsValue("0") == 0 by { assert "0"[..0] == []; }
      r
    else
      assert n < 100 ==> |NatToString(n / 10)| == 1;
      NatToString(n)
  }

  /** The characters Python's `str.isspace()` accepts (and `str.strip()` removes). */
  const Spaces: set<char> := {
    ' ', '\t', '\n', '\U{b}', '\U{c}', '\r', '\U{1c}', '\U{1d}', '\U{1e}', '\U{1f}', '\U{85}', '\U{a0}',
    '\U{1680}', '\U{2000}', '\U{2001}', '\U{2002}', '\U{2003}', '\U{2004}', '\U{2005}', '\U{2006}',
    '\U{2007}', '\U{2008}', '\U{2009}', '\U{200a}', '\U{2028}', '\U{2029}', '\U{202f}', '\U{205f}',
    '\U{3000}'
  }

  predicate IsSpace(c: char) { c in Spaces }

  function TrimLeft(s: string): string
  {
    if s != [] && IsSpace(s[0]) then TrimLeft(s[1..]) else s
  }

  function TrimRight(s: string): string
  {
    if s != [] && IsSpace(s[|s| - 1]) then TrimRight(s[..|s| - 1]) else s
  }

  /** `s.strip()`. */
  function Strip(s: string): string
  {
    TrimRight(TrimLeft(s))
  }

  /** `lstrip` drops exactly the leading whitespace: what is left is a suffix starting with a non-space. */
  lemma {:induction false} TrimLeftSuffix(s: string)
    ensures |TrimLeft(s)| <= |s| && TrimLeft(s) == s[|s| - |TrimLeft(s)|..]
    ensures forall i :: 0 <= i < |s| - |TrimLeft(s)| ==> IsSpace(s[i])
    ensures TrimLeft(s) == [] || !IsSpace(TrimLeft(s)[0])
  {
    if s != [] && IsSpace(s[0]) {
      TrimLeftSuffix(s[1..]);
    }
  }

  /** `rstrip` drops exactly the trailing whitespace: what is left is a prefix ending in a non-space. */
  lemma {:induction false} TrimRightPrefix(s: string)
    ensures |TrimRight(s)| <= |s| && TrimRight(s) == s[..|TrimRight(s)|]
    ensures forall i :: |TrimRight(s)| <= i < |s| ==> IsSpace(s[i])
    ensures TrimRight(s) == [] || !IsSpace(TrimRight(s)[|TrimRight(s)| - 1])
  {
    if s != [] && IsSpace(s[|s| - 1]) {
      TrimRightPrefix(s[..|s| - 1]);
    }
  }

  /**
   * `strip` removes exactly the surrounding whitespace: the result is the slice of `s`
   * that starts at the first non-space character and ends at the last one.
   */
  lemma StripCharacterized(s: string)
    ensures |Strip(s)| <= |TrimLeft(s)| <= |s|
    ensures Strip(s) == s[|s| - |TrimLeft(s)|..|s| - |TrimLeft(s)| + |Strip(s)|]
    ensures forall k :: 0 <= k < |s| - |TrimLeft(s)| ==> IsSpace(s[k])
    ensures forall k :: |s| - |TrimLeft(s)| + |Strip(s)| <= k < |s| ==> IsSpace(s[k])
    ensures Strip(s) == [] || (!IsSpace(Strip(s)[0]) && !IsSpace(Strip(s)[|Strip(s)| - 1]))
  {
    TrimLeftSuffix(s);
    StripOfSuffix(s);
  }

  /** The stripped text is the part of the left-stripped suffix that `rstrip` keeps. */
  lemma StripOfSuffix(s: string)
    requires |TrimLeft(s)| <= |s| && TrimLeft(s) == s[|s| - |TrimLeft(s)|..]
    requires TrimLeft(s) == [] || !IsSpace(TrimLeft(s)[0])
    ensures |Strip(s)| <= |TrimLeft(s)|
    ensures Strip(s) == s[|s| - |TrimLeft(s)|..|s| - |TrimLeft(s)| + |Strip(s)|]
    ensures forall k :: |s| - |TrimLeft(s)| + |Strip(s)| <= k < |s| ==> IsSpace(s[k])
    ensures Strip(s) == [] || (!IsSpace(Strip(s)[0]) && !IsSpace(Strip(s)[|Strip(s)| - 1]))
  {
    var l := TrimLeft(s);
    var r := TrimRight(l);
    TrimRightPrefix(l);
    InnerSlice(s, |s| - |l|, |r|, IsSpace);
    if r != [] {
      assert r[0] == l[0];
    }
  }

  /** A prefix of a suffix is a slice, and what follows the prefix in the suffix follows the slice in the whole. */
  lemma InnerSlice<T>(s: seq<T>, i: nat, n: nat, p: T -> bool)
    requires i + n <= |s|
    requires forall k :: n <= k < |s| - i ==> p(s[i..][k])
    ensures s[i..][..n] == s[i..i + n]
    ensures forall k :: i + n <= k < |s| ==> p(s[k])
  {
    forall k | i + n <= k < |s| ensures p(s[k]) {
      assert s[k] == s[i..][k - i];
    }
  }

  /** Stripping twice changes nothing. */
  lemma StripIdempotent(s: string)
    ensures Strip(Strip(s)) == Strip(s)
  {
    StripCharacterized(s);
    var r := Strip(s);
    assert TrimLeft(r) == r;
    assert TrimRight(r) == r;
  }

  predicate StartsWith(s: string, prefix: string) { prefix <= s }

  /** Python's `sub in s`. */
  predicate Contains(s: string, sub: string)
  {
    sub <= s || (s != [] && Contains(s[1..], sub))
  }

  lemma {:induction false} ContainsAt(s: string, sub: string, i: nat)
    requires i + |sub| <= |s| && s[i..i + |sub|] == sub
    ensures Contains(s, sub)
  {
    if i > 0 {
      assert s[1..][i - 1..i - 1 + |sub|] == sub;
      ContainsAt(s[1..], sub, i - 1);
    }
  }

  predicate HasChar(s: string, c: char) { c in s }

  /** `s.split(sep)` with a one-character separator. */
  function Split(s: string, sep: char): (r: seq<string>)
    ensures |r| >= 1
    ensures forall p :: p in r ==> sep !in p
  {
    if s == [] then [""]
    else
      var t := Split(s[1..], sep);
      if s[0] == sep then [""] + t else [[s[0]] + t[0]] + t[1..]
  }

  /** A split yields one piece more than there are separators. */
  lemma {:induction false} SplitCount(s: string, sep: char)
    ensures |Split(s, sep)| == 1 + multiset(s)[sep]
  {
    if s != [] {
      SplitCount(s[1..], sep);
      assert s == [s[0]] + s[1..];
    }
  }

  /** `sep.join(parts)`. */
  function Join(parts: seq<string>, sep: string): string
  {
    if parts == [] then ""
    else if |parts| == 1 then parts[0]
    else parts[0] + sep + Join(parts[1..], sep)
  }

  /** Joining the pieces of a split with the same separator gives the string back. */
  lemma {:induction false} JoinSplit(s: string, sep: char)
    ensures Join(Split(s, sep), [sep]) == s
  {
    if s != [] {
      var t := Split(s[1..], sep);
      JoinSplit(s[1..], sep);
      if s[0] == sep {
        assert ([""] + t)[1..] == t;
      } else {
        if |t| > 1 {
          assert t == [t[0]] + t[1..];
          assert ([[s[0]] + t[0]] + t[1..])[1..] == t[1..];
        }
      }
    }
  }

  /** A piece without the separator, then the separator: the split takes the piece off whole. */
  lemma {:induction false} SplitAfterPiece(a: string, sep: char, b: string)
    requires sep !in a
    ensures Split(a + [sep] + b, sep) == [a] + Split(b, sep)
  {
    if a == [] {
      assert a + [sep] + b == [sep] + b;
    } else {
      SplitAfterPiece(a[1..], sep, b);
      assert (a + [sep] + b)[1..] == a[1..] + [sep] + b;
      assert [a[0]] + a[1..] == a;
    }
  }

  /** A string without the separator splits into itself. */
  lemma {:induction false} SplitWhole(a: string, sep: char)
    requires sep !in a
    ensures Split(a, sep) == [a]
  {
    if a != [] {
      SplitWhole(a[1..], sep);
      assert [a[0]] + a[1..] == a;
    }
  }

  /**
   * Splitting a join of pieces that hold no separator gives the pieces back (a join of no
   * pieces is the empty string, which splits into one empty piece).
   */
  lemma {:induction false} SplitJoin(parts: seq<string>, sep: char)
    requires parts != []
    requires forall p :: p in parts ==> sep !in p
    ensures Split(Join(parts, [sep]), sep) == parts
  {
    if |parts| == 1 {
      SplitWhole(parts[0], sep);
    } else {
      assert forall p :: p in parts[1..] ==> p in parts;
      SplitJoin(parts[1..], sep);
      SplitAfterPiece(parts[0], sep, Join(parts[1..], [sep]));
      assert [parts[0]] + parts[1..] == parts;
    }
  }

  /** `s * n`. */
  function Repeat(s: string, n: nat): (r: string)
    ensures |r| == n * |s|
  {
    if n == 0 then "" else s + Repeat(s, n - 1)
  }
}
