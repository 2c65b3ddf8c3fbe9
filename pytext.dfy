/**
 * The three pieces of Python string semantics the orchestration relies on:
 * `str(i)` for an integer, the slice `s[:n]`, and `sep.join(parts)`.
 */
module PyText {

  /** The character of decimal digit `d`. */
  function DigitChar(d: nat): (c: char)
    requires d < 10
    ensures '0' <= c <= '9'
    ensures c == '0' <==> d == 0
  {
    ('0' as int + d) as char
  }

  /** The value of a decimal digit character; inverse of DigitChar. */
  function DigitValue(c: char): (d: nat)
    requires '0' <= c <= '9'
    ensures d < 10 && DigitChar(d) == c
  {
    c as int - '0' as int
  }

  predicate IsDigits(s: string)
  {
    forall i :: 0 <= i < |s| ==> '0' <= s[i] <= '9'
  }

  /** `str(n)` for a non-negative integer: decimal, without leading zeros. */
  function NatToString(n: nat): (r: string)
    ensures r != [] && IsDigits(r)
    ensures r[0] == '0' <==> n == 0
    ensures n == 0 ==> |r| == 1
  {
    if n < 10 then [DigitChar(n)] else NatToString(n / 10) + [DigitChar(n % 10)]
  }

  /** The number a string of decimal digits denotes (most significant digit first). */
  function DecimalValue(s: string): nat
    requires IsDigits(s)
  {
    if s == [] then 0 else 10 * DecimalValue(s[..|s| - 1]) + DigitValue(s[|s| - 1])
  }

  /** Reading back what NatToString wrote gives the number. */
  lemma {:induction false} NatToStringRoundTrip(n: nat)
    ensures DecimalValue(NatToString(n)) == n
  {
    var r := NatToString(n);
    if n >= 10 {
      assert r[..|r| - 1] == NatToString(n / 10);
      NatToStringRoundTrip(n / 10);
    }
  }

  /** `str(i)` for any integer: a minus sign before the magnitude when negative. */
  function IntToString(i: int): (r: string)
    ensures r != []
    ensures r[0] == '-' <==> i < 0
    ensures i >= 0 ==> IsDigits(r)
  {
    if i < 0 then "-" + NatToString(-i) else NatToString(i)
  }

  /** Parses what IntToString produces. */
  function ParseInt(s: string): int
    requires s != []
    requires s[0] == '-' ==> IsDigits(s[1..])
    requires s[0] != '-' ==> IsDigits(s)
  {
    if s[0] == '-' then -(DecimalValue(s[1..]) as int) else DecimalValue(s)
  }

  /** IntToString loses nothing: ParseInt recovers the integer. */
  lemma {:induction false} IntToStringRoundTrip(i: int)
    ensures var r := IntToString(i);
      (r[0] == '-' ==> IsDigits(r[1..])) && ParseInt(r) == i
  {
    if i < 0 {
      assert IntToString(i)[1..] == NatToString(-i);
      NatToStringRoundTrip(-i);
    } else {
      NatToStringRoundTrip(i);
    }
  }

  /** The slice `s[:n]` for a non-negative `n`: the longest prefix of `s` of length at most `n`. */
  function Take(s: string, n: nat): (r: string)
    ensures |r| <= n && r <= s
    ensures |r| < n ==> r == s
  {
    if |s| <= n then s else s[..n]
  }

  /** Slicing twice to the same bound is slicing once. */
  lemma TakeIdempotent(s: string, n: nat)
    ensures Take(Take(s, n), n) == Take(s, n)
  {
  }

  /** `sep.join(parts)`. */
  function Join(sep: string, parts: seq<string>): (r: string)
    ensures parts == [] ==> r == ""
    ensures parts != [] ==> parts[0] <= r
    ensures parts != [] ==> |parts[|parts| - 1]| <= |r| && r[|r| - |parts[|parts| - 1]|..] == parts[|parts| - 1]
  {
    if |parts| == 0 then ""
    else if |parts| == 1 then parts[0]
    else
      var rest := Join(sep, parts[1..]);
      assert parts[1..][|parts[1..]| - 1] == parts[|parts| - 1];
      parts[0] + sep + rest
  }

  /** Joining three parts puts the separator between neighbours and nowhere else. */
  lemma JoinThree(sep: string, a: string, b: string, c: string)
    ensures Join(sep, [a, b, c]) == a + sep + b + sep + c
  {
    var bc := Join(sep, [b, c]);
    assert bc == b + sep + c by {
      assert [b, c][1..] == [c];
      assert Join(sep, [c]) == c;
    }
    assert Join(sep, [a, b, c]) == a + sep + bc by {
      assert [a, b, c][1..] == [b, c];
    }
  }
}
