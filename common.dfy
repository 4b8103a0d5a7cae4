/** Text helpers shared by the server and the browser client models: an
    Option type, ASCII lower-casing, suffix and substring tests, decimal
    rendering of integers and left padding. */
module Common {

  datatype Option<+T> = None | Some(value: T)

  /** Lower-cases one character; only the ASCII letters A-Z change. */
  function Lower(c: char): char
  {
    if 'A' <= c <= 'Z' then (c as int + 32) as char else c
  }

  function ToLower(s: string): (r: string)
    ensures |r| == |s|
    ensures forall i :: 0 <= i < |s| ==> r[i] == Lower(s[i])
  {
    seq(|s|, i requires 0 <= i < |s| => Lower(s[i]))
  }

  /** Lower-casing leaves a dot a dot and never makes one. */
  lemma LowerDot(c: char)
    ensures Lower(c) == '.' <==> c == '.'
  {
  }

  predicate EndsWith(s: string, suffix: string)
  {
    |suffix| <= |s| && s[|s| - |suffix|..] == suffix
  }

  /** `pat` occurs in `s` starting at index `i`. */
  predicate OccursAt(s: string, pat: string, i: int)
  {
    0 <= i && i + |pat| <= |s| && s[i..i + |pat|] == pat
  }

  predicate Occurs(s: string, pat: string)
  {
    exists i :: 0 <= i <= |s| && OccursAt(s, pat, i)
  }

  /** The text after the last occurrence of `c` in `s`, or all of `s` when
      `c` does not occur (Python's `s.rsplit(c, 1)[-1]`). */
  function TailAfter(s: string, c: char): (r: string)
    ensures |r| <= |s|
  {
    if s == [] then []
    else if s[|s| - 1] == c then []
    else TailAfter(s[..|s| - 1], c) + [s[|s| - 1]]
  }

  /** The result is a suffix without `c`; it is shorter than `s` exactly
      when `c` occurs, and then it follows a `c`. */
  lemma {:induction false} TailAfterSpec(s: string, c: char)
    ensures var r := TailAfter(s, c);
      && r == s[|s| - |r|..]
      && c !in r
      && (|r| < |s| <==> c in s)
      && (|r| < |s| ==> s[|s| - |r| - 1] == c)
  {
    if s != [] && s[|s| - 1] != c {
      var front := s[..|s| - 1];
      TailAfterSpec(front, c);
      assert s == front + [s[|s| - 1]];
    }
  }

  /** A suffix without `c` that is all of `s` or follows a `c` is the text
      after the last `c`. */
  lemma TailAfterUnique(s: string, c: char, k: nat)
    requires k <= |s| && c !in s[|s| - k..]
    requires k == |s| || s[|s| - k - 1] == c
    ensures TailAfter(s, c) == s[|s| - k..]
  {
    TailAfterSpec(s, c);
  }

  function Digit(d: nat): (c: char)
    requires d < 10
    ensures '0' <= c <= '9' && c as int - '0' as int == d
  {
    ('0' as int + d) as char
  }

  /** Decimal rendering of a natural number, without leading zeros. */
  function NatToString(n: nat): (r: string)
    ensures 1 <= |r|
    ensures forall i :: 0 <= i < |r| ==> '0' <= r[i] <= '9'
    ensures n < 10 <==> |r| == 1
    ensures |r| == 1 ==> r == [Digit(n)]
    ensures r[0] == '0' <==> n == 0
  {
    if n < 10 then [Digit(n)] else NatToString(n / 10) + [Digit(n % 10)]
  }

  /** The number a string of decimal digits denotes. */
  function DecimalValue(s: string): int
  {
    if s == [] then 0 else 10 * DecimalValue(s[..|s| - 1]) + (s[|s| - 1] as int - '0' as int)
  }

  /** The decimal text of `n` reads back as `n`. */
  lemma {:induction false} NatToStringReadsBack(n: nat)
    ensures DecimalValue(NatToString(n)) == n
  {
    if n >= 10 {
      var r := NatToString(n);
      NatToStringReadsBack(n / 10);
      assert r[..|r| - 1] == NatToString(n / 10);
    }
  }

  /** Decimal rendering as JavaScript's Number.prototype.toString gives it
      for an integer. */
  function IntToString(i: int): (r: string)
    ensures 1 <= |r|
    ensures r[0] == '-' <==> i < 0
    ensures i < 0 ==> forall k :: 1 <= k < |r| ==> '0' <= r[k] <= '9'
    ensures 0 <= i ==> forall k :: 0 <= k < |r| ==> '0' <= r[k] <= '9'
  {
    if i < 0 then "-" + NatToString(-i) else NatToString(i)
  }

  /** The text of `i` reads back as `i`: a `-` sign then the digits of its
      magnitude, or just its digits. */
  lemma IntToStringReadsBack(i: int)
    ensures var r := IntToString(i);
      (if r[0] == '-' then -DecimalValue(r[1..]) else DecimalValue(r)) == i
  {
    NatToStringReadsBack(if i < 0 then -i else i);
    if i < 0 {
      assert IntToString(i)[1..] == NatToString(-i);
    }
  }

  function Repeat(c: char, n: nat): (r: string)
    ensures |r| == n && forall i :: 0 <= i < n ==> r[i] == c
  {
    if n == 0 then [] else [c] + Repeat(c, n - 1)
  }

  /** JavaScript's String.prototype.padStart with a one-character filler. */
  function PadStart(s: string, width: nat, fill: char): (r: string)
    ensures |r| == if |s| < width then width else |s|
    ensures EndsWith(r, s)
    ensures forall i :: 0 <= i < |r| - |s| ==> r[i] == fill
  {
    if |s| < width then Repeat(fill, width - |s|) + s else s
  }
}
