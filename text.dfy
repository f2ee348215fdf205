/**
 * The JavaScript string operations the core relies on: `startsWith`,
 * `toLowerCase`, `trim`, `split` with a one-character separator, and the
 * decimal rendering of a counter used to build ids such as `app-4`.
 */
module Text {

  /** `s.startsWith(prefix)`. */
  predicate StartsWith(s: string, prefix: string) {
    |prefix| <= |s| && s[..|prefix|] == prefix
  }

  /** Lower-casing of one character (ASCII letters; other characters are kept). */
  function LowerChar(c: char): char {
    if 'A' <= c <= 'Z' then (c as int + 32) as char else c
  }

  /** `s.toLowerCase()`, restricted to ASCII letters. */
  function Lower(s: string): (r: string)
    ensures |r| == |s|
    ensures forall i :: 0 <= i < |s| ==> r[i] == LowerChar(s[i])
  {
    seq(|s|, i requires 0 <= i < |s| => LowerChar(s[i]))
  }

  /** `a.toLowerCase() === b.toLowerCase()`. */
  predicate SameIgnoringCase(a: string, b: string) {
    Lower(a) == Lower(b)
  }

  /** The characters `String.prototype.trim` removes: ECMAScript WhiteSpace and LineTerminator. */
  predicate IsWhiteSpace(c: char) {
    var n := c as int;
    n == 0x09 || n == 0x0A || n == 0x0B || n == 0x0C || n == 0x0D || n == 0x20 ||
    n == 0xA0 || n == 0x1680 || (0x2000 <= n <= 0x200A) || n == 0x2028 || n == 0x2029 ||
    n == 0x202F || n == 0x205F || n == 0x3000 || n == 0xFEFF
  }

  /** Neither end of `s` satisfies `ws`. */
  predicate EndsKept(s: string, ws: char -> bool) {
    s == [] || (!ws(s[0]) && !ws(s[|s| - 1]))
  }

  /** Neither end of `s` is white space. */
  predicate IsTrimmed(s: string) {
    EndsKept(s, IsWhiteSpace)
  }

  /** The first position at or after `i` that does not satisfy `ws` (or `|s|`). */
  function FirstKept(s: string, ws: char -> bool, i: nat): (n: nat)
    requires i <= |s|
    ensures i <= n <= |s|
    ensures forall k :: i <= k < n ==> ws(s[k])
    ensures n == |s| || !ws(s[n])
    decreases |s| - i
  {
    if i < |s| && ws(s[i]) then FirstKept(s, ws, i + 1) else i
  }

  /** The end of the last run of characters before `j`, down to `lo`, that does not satisfy `ws`. */
  function LastKept(s: string, ws: char -> bool, lo: nat, j: nat): (m: nat)
    requires lo <= j <= |s|
    ensures lo <= m <= j
    ensures forall k :: m <= k < j ==> ws(s[k])
    ensures m == lo || !ws(s[m - 1])
  {
    if j > lo && ws(s[j - 1]) then LastKept(s, ws, lo, j - 1) else j
  }

  /**
   * Trimming with `ws` as white space: the result is the piece of `s` left
   * after cutting off the characters satisfying `ws` on both sides.
   */
  function TrimWith(s: string, ws: char -> bool): (r: string)
    ensures EndsKept(r, ws)
    ensures exists i, j ::
              && 0 <= i <= j <= |s| && r == s[i..j]
              && (forall k :: 0 <= k < i ==> ws(s[k]))
              && (forall k :: j <= k < |s| ==> ws(s[k]))
    ensures r == [] <==> forall k :: 0 <= k < |s| ==> ws(s[k])
    ensures EndsKept(s, ws) ==> r == s
  {
    var i := FirstKept(s, ws, 0);
    var j := LastKept(s, ws, i, |s|);
    assert EndsKept(s, ws) && s != [] ==> i == 0 && j == |s|;
    assert s[0..|s|] == s;
    s[i..j]
  }

  /** `s.trim()`: cuts the ECMAScript white space and line terminators off both ends. */
  function Trim(s: string): (r: string)
    ensures IsTrimmed(r)
    ensures exists i, j ::
              && 0 <= i <= j <= |s| && r == s[i..j]
              && (forall k :: 0 <= k < i ==> IsWhiteSpace(s[k]))
              && (forall k :: j <= k < |s| ==> IsWhiteSpace(s[k]))
    ensures r == [] <==> forall k :: 0 <= k < |s| ==> IsWhiteSpace(s[k])
    ensures IsTrimmed(s) ==> r == s
  {
    TrimWith(s, IsWhiteSpace)
  }

  /** The trimmed string is no longer than `s` and uses only characters of `s`. */
  lemma TrimChars(s: string)
    ensures |Trim(s)| <= |s|
    ensures forall c :: c in Trim(s) ==> c in s
  {
    var i, j :| 0 <= i <= j <= |s| && Trim(s) == s[i..j];
    SliceChars(s, i, j);
  }

  /** A slice holds only characters of the string it is cut from. */
  lemma SliceChars(s: string, i: nat, j: nat)
    requires i <= j <= |s|
    ensures forall c :: c in s[i..j] ==> c in s
  {
    forall c | c in s[i..j] ensures c in s {
      var k :| 0 <= k < j - i && s[i..j][k] == c;
      assert s[i + k] == c;
    }
  }

  /** Number of occurrences of `c` in `s`. */
  function Occurrences(s: string, c: char): nat {
    if |s| == 0 then 0 else (if s[0] == c then 1 else 0) + Occurrences(s[1..], c)
  }

  /** `s.split(sep)` for a one-character separator: an empty string gives `[""]`. */
  function Split(s: string, sep: char): (parts: seq<string>)
    ensures |parts| == Occurrences(s, sep) + 1
    ensures forall i :: 0 <= i < |parts| ==> sep !in parts[i]
    ensures forall i, k :: 0 <= i < |parts| && 0 <= k < |parts[i]| ==> parts[i][k] in s
    decreases |s|
  {
    if |s| == 0 then [""]
    else
      var rest := Split(s[1..], sep);
      if s[0] == sep then [""] + rest
      else [[s[0]] + rest[0]] + rest[1..]
  }

  /** `parts.join(sep)`, the inverse of `Split`. */
  function Join(parts: seq<string>, sep: char): string {
    if |parts| == 0 then ""
    else if |parts| == 1 then parts[0]
    else parts[0] + [sep] + Join(parts[1..], sep)
  }

  /** Splitting loses nothing: joining the pieces back gives the original string. */
  lemma {:induction false} SplitJoin(s: string, sep: char)
    ensures Join(Split(s, sep), sep) == s
    decreases |s|
  {
    if |s| > 0 {
      var rest := Split(s[1..], sep);
      var parts := Split(s, sep);
      SplitJoin(s[1..], sep);
      assert s == [s[0]] + s[1..];
      if s[0] == sep {
        assert parts[1..] == rest;
        assert Join(parts, sep) == parts[0] + [sep] + Join(rest, sep);
      } else {
        var head := [s[0]] + rest[0];
        if |rest| == 1 {
          assert parts == [head];
        } else {
          assert parts[1..] == rest[1..];
          assert Join(parts, sep) == head + [sep] + Join(rest[1..], sep);
          assert Join(rest, sep) == rest[0] + [sep] + Join(rest[1..], sep);
        }
      }
    }
  }

  /** One decimal digit. */
  function DigitChar(d: nat): char
    requires d < 10
  {
    ('0' as int + d) as char
  }

  /** `${n}` for a natural number: a non-empty run of decimal digits. */
  function Decimal(n: nat): (r: string)
    ensures |r| >= 1
    ensures forall i :: 0 <= i < |r| ==> '0' <= r[i] <= '9'
  {
    if n < 10 then [DigitChar(n)] else Decimal(n / 10) + [DigitChar(n % 10)]
  }

  /** `Number(s)` for a string of decimal digits. */
  function DigitsValue(s: string): int {
    if s == [] then 0 else DigitsValue(s[..|s| - 1]) * 10 + (s[|s| - 1] as int - '0' as int)
  }

  /** Reading the rendered digits back gives the number. */
  lemma {:induction false} DecimalRoundTrip(n: nat)
    ensures DigitsValue(Decimal(n)) == n
  {
    if n >= 10 {
      DecimalRoundTrip(n / 10);
      var r := Decimal(n);
      assert r[..|r| - 1] == Decimal(n / 10);
    }
  }

  /** Distinct numbers render as distinct strings, so ids built from a counter never collide. */
  lemma DecimalInjective(n: nat, m: nat)
    ensures Decimal(n) == Decimal(m) ==> n == m
  {
    DecimalRoundTrip(n);
    DecimalRoundTrip(m);
  }

  /** The same holds with a common prefix in front, as in `user-N`. */
  lemma PrefixedDecimalInjective(prefix: string, n: nat, m: nat)
    ensures prefix + Decimal(n) == prefix + Decimal(m) ==> n == m
  {
    if prefix + Decimal(n) == prefix + Decimal(m) {
      assert (prefix + Decimal(n))[|prefix|..] == Decimal(n);
      assert (prefix + Decimal(m))[|prefix|..] == Decimal(m);
      DecimalInjective(n, m);
    }
  }
}
