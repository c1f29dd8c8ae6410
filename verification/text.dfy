/** The handful of Python `str` operations the agents rely on: whitespace
    stripping, character replacement, `join`/`split`, substring tests and
    `str(int)`. */
module Text {

  /** Python's `str.isspace` for a single character: the ASCII controls
      TAB..CR, the separators 0x1C..0x1F, SPACE, NEL, NBSP and the Unicode
      space separators. */
  predicate IsSpace(c: char) {
    var n := c as int;
    || 9 <= n <= 13
    || 0x1c <= n <= 0x20
    || n == 0x85 || n == 0xa0 || n == 0x1680
    || 0x2000 <= n <= 0x200a
    || n == 0x2028 || n == 0x2029 || n == 0x202f || n == 0x205f || n == 0x3000
  }

  /** Removes the longest prefix whose characters all satisfy `drop`. */
  function TrimLeft(s: string, drop: char -> bool): (r: string)
    ensures |r| <= |s| && r == s[|s| - |r|..]
    ensures forall k :: 0 <= k < |s| - |r| ==> drop(s[k])
    ensures |r| > 0 ==> !drop(r[0])
  {
    if |s| > 0 && drop(s[0]) then TrimLeft(s[1..], drop) else s
  }

  /** Removes the longest suffix whose characters all satisfy `drop`. */
  function TrimRight(s: string, drop: char -> bool): (r: string)
    ensures |r| <= |s| && r == s[..|r|]
    ensures forall k :: |r| <= k < |s| ==> drop(s[k])
    ensures |r| > 0 ==> !drop(r[|r| - 1])
  {
    if |s| > 0 && drop(s[|s| - 1]) then TrimRight(s[..|s| - 1], drop) else s
  }

  /** Python's `s.strip(chars)`: the middle part of `s` left after removing
      every leading and trailing character that satisfies `drop`. */
  function Trim(s: string, drop: char -> bool): (r: string)
    ensures exists i, j ::
              && 0 <= i <= j <= |s| && r == s[i..j]
              && (forall k :: 0 <= k < i ==> drop(s[k]))
              && (forall k :: j <= k < |s| ==> drop(s[k]))
    ensures |r| > 0 ==> !drop(r[0]) && !drop(r[|r| - 1])
  {
    var t := TrimLeft(s, drop);
    var r := TrimRight(t, drop);
    var i := |s| - |t|;
    assert r == s[i..i + |r|];
    r
  }

  /** Trimming removes characters and never brings one in. */
  lemma TrimAvoids(s: string, drop: char -> bool, c: char)
    requires c !in s
    ensures c !in Trim(s, drop)
  {
    var t := TrimLeft(s, drop);
    assert t == s[|s| - |t|..];
    var r := TrimRight(t, drop);
    assert r == t[..|r|];
    assert Trim(s, drop) == r;
  }

  /** Python's `s.strip()` with no argument. */
  function Strip(s: string): string {
    Trim(s, IsSpace)
  }

  /** Python's `s.replace(from, to)` for single characters. */
  function Replace(s: string, from: char, to: char): (r: string)
    ensures |r| == |s|
    ensures forall k :: 0 <= k < |s| ==> r[k] == (if s[k] == from then to else s[k])
  {
    if |s| == 0 then ""
    else [if s[0] == from then to else s[0]] + Replace(s[1..], from, to)
  }

  /** Python's `sep.join(parts)`. */
  function Join(parts: seq<string>, sep: string): string {
    if |parts| == 0 then ""
    else if |parts| == 1 then parts[0]
    else parts[0] + sep + Join(parts[1..], sep)
  }

  /** Python's `s.split(c)` for a one-character separator: always at least one
      piece, and `""` splits to `[""]`. */
  function Split(s: string, c: char): (pieces: seq<string>)
    ensures |pieces| >= 1
    ensures forall k :: 0 <= k < |pieces| ==> c !in pieces[k]
  {
    if |s| == 0 then [""]
    else if s[0] == c then [""] + Split(s[1..], c)
    else
      var rest := Split(s[1..], c);
      [[s[0]] + rest[0]] + rest[1..]
  }

  /** A piece with no separator in it splits to itself. */
  lemma {:induction false} SplitNoSeparator(s: string, c: char)
    requires c !in s
    ensures Split(s, c) == [s]
  {
    if |s| > 0 {
      SplitNoSeparator(s[1..], c);
      assert [s[0]] + s[1..] == s;
    }
  }

  /** Splitting stops at the first separator. */
  lemma {:induction false} SplitAtFirst(a: string, c: char, b: string)
    requires c !in a
    ensures Split(a + [c] + b, c) == [a] + Split(b, c)
  {
    if |a| == 0 {
      assert a + [c] + b == [c] + b;
      assert ([c] + b)[1..] == b;
    } else {
      var s := a + [c] + b;
      assert s[0] == a[0];
      assert s[1..] == a[1..] + [c] + b;
      SplitAtFirst(a[1..], c, b);
      assert [a[0]] + a[1..] == a;
    }
  }

  /** `split` undoes `join` when no part contains the separator. */
  lemma {:induction false} SplitJoin(parts: seq<string>, c: char)
    requires |parts| >= 1
    requires forall k :: 0 <= k < |parts| ==> c !in parts[k]
    ensures Split(Join(parts, [c]), c) == parts
  {
    if |parts| == 1 {
      SplitNoSeparator(parts[0], c);
    } else {
      SplitJoin(parts[1..], c);
      SplitAtFirst(parts[0], c, Join(parts[1..], [c]));
      assert [parts[0]] + parts[1..] == parts;
    }
  }

  /** A `join` contains a character only if a part or the separator does. */
  lemma {:induction false} JoinAvoids(parts: seq<string>, sep: string, c: char)
    requires c !in sep
    requires forall k :: 0 <= k < |parts| ==> c !in parts[k]
    ensures c !in Join(parts, sep)
  {
    if |parts| > 1 {
      JoinAvoids(parts[1..], sep, c);
    }
  }

  /** Every character of a `join` satisfies `p` if every character of the
      parts and of the separator does. */
  lemma {:induction false} JoinAll(parts: seq<string>, sep: string, p: char -> bool)
    requires forall k :: 0 <= k < |sep| ==> p(sep[k])
    requires forall i, k :: 0 <= i < |parts| && 0 <= k < |parts[i]| ==> p(parts[i][k])
    ensures forall k :: 0 <= k < |Join(parts, sep)| ==> p(Join(parts, sep)[k])
  {
    if |parts| > 1 {
      JoinAll(parts[1..], sep, p);
      var rest := Join(parts[1..], sep);
      var all := parts[0] + sep + rest;
      forall k | 0 <= k < |all| ensures p(all[k]) {
        if k < |parts[0]| {
          assert all[k] == parts[0][k];
        } else if k < |parts[0]| + |sep| {
          assert all[k] == sep[k - |parts[0]|];
        } else {
          assert all[k] == rest[k - |parts[0]| - |sep|];
        }
      }
    }
  }

  /** The last part of a `join` ends it. */
  lemma {:induction false} JoinEndsWith(parts: seq<string>, sep: string)
    requires |parts| >= 1
    ensures |parts[|parts| - 1]| <= |Join(parts, sep)|
    ensures Join(parts, sep)[|Join(parts, sep)| - |parts[|parts| - 1]|..] == parts[|parts| - 1]
  {
    if |parts| > 1 {
      JoinEndsWith(parts[1..], sep);
      var rest := Join(parts[1..], sep);
      var last := parts[|parts| - 1];
      var all := parts[0] + sep + rest;
      assert all[|all| - |last|..] == rest[|rest| - |last|..];
    }
  }

  /** Python's `s.startswith(prefix)`. */
  predicate StartsWith(s: string, prefix: string) {
    |prefix| <= |s| && s[..|prefix|] == prefix
  }

  /** Python's `a <= b` on strings: code-point lexicographic order. */
  predicate StrLe(a: string, b: string) {
    |a| == 0 || (|b| > 0 && (a[0] < b[0] || (a[0] == b[0] && StrLe(a[1..], b[1..]))))
  }

  /** Any two strings are comparable. */
  lemma {:induction false} StrLeTotal(a: string, b: string)
    ensures StrLe(a, b) || StrLe(b, a)
  {
    if |a| > 0 && |b| > 0 && a[0] == b[0] {
      StrLeTotal(a[1..], b[1..]);
    }
  }

  /** Python's `sub in s` for strings. */
  predicate Contains(s: string, sub: string) {
    |sub| <= |s| && (s[..|sub|] == sub || Contains(s[1..], sub))
  }

  predicate IsDigit(c: char) {
    '0' <= c <= '9'
  }

  function DigitValue(c: char): (d: nat)
    requires IsDigit(c)
    ensures d < 10
  {
    (c as int) - ('0' as int)
  }

  function DigitChar(d: nat): (c: char)
    requires d < 10
    ensures IsDigit(c) && DigitValue(c) == d
  {
    ('0' as int + d) as char
  }

  /** The decimal digits of `n`, most significant first, with no leading zero. */
  function Digits(n: nat): (r: string)
    ensures |r| >= 1
    ensures forall k :: 0 <= k < |r| ==> IsDigit(r[k])
    ensures |r| > 1 ==> r[0] != '0'
  {
    if n < 10 then [DigitChar(n)] else Digits(n / 10) + [DigitChar(n % 10)]
  }

  /** Python's `str(i)` for an `int`. */
  function IntToString(i: int): string {
    if i < 0 then "-" + Digits(-i) else Digits(i)
  }

  /** CPython refuses to convert an integer of more than 4300 digits to or
      from decimal text. */
  const MaxStrDigits := 4300

  /** The number of digits `str()` writes for an integer. */
  function DigitCount(i: int): nat {
    |Digits(if i < 0 then -i else i)|
  }

  /** Reads decimal digits back; the partner of `Digits`. */
  function ParseDigits(s: string): nat
    requires forall k :: 0 <= k < |s| ==> IsDigit(s[k])
  {
    if |s| == 0 then 0
    else 10 * ParseDigits(s[..|s| - 1]) + DigitValue(s[|s| - 1])
  }

  /** Reads an optionally negative decimal numeral back; the partner of `IntToString`. */
  function ParseInt(s: string): int
    requires |s| >= 1
    requires forall k :: (if s[0] == '-' then 1 else 0) <= k < |s| ==> IsDigit(s[k])
  {
    if s[0] == '-' then 0 - ParseDigits(s[1..]) else ParseDigits(s)
  }

  lemma {:induction false} DigitsRoundTrip(n: nat)
    ensures ParseDigits(Digits(n)) == n
  {
    if n >= 10 {
      DigitsRoundTrip(n / 10);
      var d := Digits(n);
      assert d[..|d| - 1] == Digits(n / 10);
    }
  }

  /** `str(i)` is a decimal numeral that reads back as `i`, so distinct
      integers render differently. */
  lemma IntToStringRoundTrip(i: int)
    ensures |IntToString(i)| >= 1
    ensures forall k :: (if IntToString(i)[0] == '-' then 1 else 0) <= k < |IntToString(i)| ==> IsDigit(IntToString(i)[k])
    ensures ParseInt(IntToString(i)) == i
  {
    var s := IntToString(i);
    if i < 0 {
      var d := Digits(-i);
      DigitsRoundTrip(-i);
      assert s == "-" + d && s[0] == '-';
      assert s[1..] == d;
      assert forall k :: 1 <= k < |s| ==> s[k] == d[k - 1];
    } else {
      var d := Digits(i);
      DigitsRoundTrip(i);
      assert s == d && IsDigit(s[0]) && s[0] != '-';
    }
  }
}
