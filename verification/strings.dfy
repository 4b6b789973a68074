/** The few string operations the source relies on: ASCII case mapping (`str.lower`,
    `str.upper` restricted to ASCII), substring search (`in`), decimal rendering (`str(n)`),
    `s.split(sep)[-1]` and POSIX `os.path.join`. */
module Strings {
  import opened Wrappers

  function LowerChar(c: char): char
  {
    if 'A' <= c <= 'Z' then (c as int + 32) as char else c
  }

  function UpperChar(c: char): char
  {
    if 'a' <= c <= 'z' then (c as int - 32) as char else c
  }

  /** `s.lower()` on ASCII letters. */
  function Lower(s: string): (r: string)
    ensures |r| == |s|
    ensures forall i :: 0 <= i < |s| ==> r[i] == LowerChar(s[i])
  {
    seq(|s|, i requires 0 <= i < |s| => LowerChar(s[i]))
  }

  /** `s.upper()` on ASCII letters. */
  function Upper(s: string): (r: string)
    ensures |r| == |s|
    ensures forall i :: 0 <= i < |s| ==> r[i] == UpperChar(s[i])
  {
    seq(|s|, i requires 0 <= i < |s| => UpperChar(s[i]))
  }

  /** Lowering is idempotent and ignores a prior upper-casing, so a test on `Lower(s)`
      does not depend on the letter case of `s`. */
  lemma LowerCaseInsensitive(s: string)
    ensures Lower(Lower(s)) == Lower(s)
    ensures Lower(Upper(s)) == Lower(s)
  {
  }

  /** Python's `sub in s`. */
  predicate Contains(sub: string, s: string)
  {
    sub <= s || (s != [] && Contains(sub, s[1..]))
  }

  predicate IsDigit(c: char)
  {
    '0' <= c <= '9'
  }

  function DigitChar(d: int): (c: char)
    requires 0 <= d < 10
    ensures IsDigit(c)
  {
    ('0' as int + d) as char
  }

  /** `str(n)` for a natural number: decimal digits, no leading zero. */
  function Decimal(n: nat): (s: string)
    ensures |s| >= 1
    ensures forall i :: 0 <= i < |s| ==> IsDigit(s[i])
  {
    if n < 10 then [DigitChar(n)] else Decimal(n / 10) + [DigitChar(n % 10)]
  }

  /** The value of a string of decimal digits. */
  function DigitsValue(s: string): nat
    requires forall i :: 0 <= i < |s| ==> IsDigit(s[i])
  {
    if s == [] then 0
    else
      assert IsDigit(s[|s| - 1]);
      var d := s[|s| - 1] as int - '0' as int;
      DigitsValue(s[..|s| - 1]) * 10 + d
  }

  /** Reading back the decimal rendering gives the number: `int(str(n)) == n`. */
  lemma {:induction false} DecimalRoundTrip(n: nat)
    ensures DigitsValue(Decimal(n)) == n
  {
    if n >= 10 {
      var s := Decimal(n);
      assert s[..|s| - 1] == Decimal(n / 10);
      DecimalRoundTrip(n / 10);
    }
  }

  lemma DecimalInjective(a: nat, b: nat)
    requires Decimal(a) == Decimal(b)
    ensures a == b
  {
    DecimalRoundTrip(a);
    DecimalRoundTrip(b);
  }

  /** Length of the leading run of decimal digits. */
  function DigitRun(s: string): (n: nat)
    ensures n <= |s|
  {
    if s == [] || !IsDigit(s[0]) then 0 else 1 + DigitRun(s[1..])
  }

  lemma {:induction false} DigitRunOf(a: string, x: string)
    requires forall i :: 0 <= i < |a| ==> IsDigit(a[i])
    requires x != [] && !IsDigit(x[0])
    ensures DigitRun(a + x) == |a|
  {
    if a == [] {
      assert a + x == x;
    } else {
      assert (a + x)[1..] == a[1..] + x;
      DigitRunOf(a[1..], x);
    }
  }

  /** If two strings made of a digit run followed by a non-digit are equal, the digit runs and the
      remainders are equal. */
  lemma DigitRunSplit(a: string, x: string, b: string, y: string)
    requires forall i :: 0 <= i < |a| ==> IsDigit(a[i])
    requires forall i :: 0 <= i < |b| ==> IsDigit(b[i])
    requires x != [] && !IsDigit(x[0]) && y != [] && !IsDigit(y[0])
    requires a + x == b + y
    ensures a == b && x == y
  {
    DigitRunOf(a, x);
    DigitRunOf(b, y);
    assert a == (a + x)[..|a|];
    assert b == (b + y)[..|b|];
    assert x == (a + x)[|a|..];
    assert y == (b + y)[|b|..];
  }

  /** `s.split(sep)[-1]`: the part after the last occurrence of `sep`, or all of `s`. */
  function AfterLast(s: string, sep: char): (r: string)
    ensures sep !in r
    ensures |r| <= |s| && r == s[|s| - |r|..]
    ensures sep !in s ==> r == s
  {
    if s == [] then []
    else if s[|s| - 1] == sep then []
    else
      var r := AfterLast(s[..|s| - 1], sep) + [s[|s| - 1]];
      assert s[..|s| - 1] + [s[|s| - 1]] == s;
      r
  }

  /** POSIX `os.path.join(folder, name)`. */
  function JoinPath(folder: string, name: string): (path: string)
    ensures |path| >= |name|
    ensures name != [] && name[0] != '/' ==> path[|path| - |name|..] == name
  {
    if name != [] && name[0] == '/' then name
    else if folder == [] || folder[|folder| - 1] == '/' then folder + name
    else folder + "/" + name
  }

  /** Within one folder, distinct relative names give distinct paths. */
  lemma JoinPathInjective(folder: string, n1: string, n2: string)
    requires n1 != [] && n1[0] != '/' && n2 != [] && n2[0] != '/'
    requires JoinPath(folder, n1) == JoinPath(folder, n2)
    ensures n1 == n2
  {
    var p := JoinPath(folder, n1);
    var pre := if folder == [] || folder[|folder| - 1] == '/' then folder else folder + "/";
    assert JoinPath(folder, n1) == pre + n1;
    assert JoinPath(folder, n2) == pre + n2;
    assert n1 == p[|pre|..];
    assert n2 == p[|pre|..];
  }

  /** `sep.join(parts)`. */
  function JoinWith(parts: seq<string>, sep: string): string
  {
    if parts == [] then ""
    else if |parts| == 1 then parts[0]
    else JoinWith(parts[..|parts| - 1], sep) + sep + parts[|parts| - 1]
  }

  /** The joined string is as long as the parts plus one separator between each neighbouring pair. */
  lemma {:induction false} JoinWithLength(parts: seq<string>, sep: string)
    ensures parts != [] ==> |JoinWith(parts, sep)| == SumLengths(parts) + (|parts| - 1) * |sep|
  {
    if |parts| > 1 {
      JoinWithLength(parts[..|parts| - 1], sep);
    }
  }

  function SumLengths(parts: seq<string>): nat
  {
    if parts == [] then 0 else SumLengths(parts[..|parts| - 1]) + |parts[|parts| - 1]|
  }
}
