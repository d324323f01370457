/**
  Decimal rendering of a 64-bit integer into a fixed 20-byte buffer, filled from the back.
  Source: itoa in api/internal/httpserver/server.go.
 */
module Itoa {
  import opened Common

  const MIN_INT64: int := -0x8000_0000_0000_0000
  const MAX_INT64: int := 0x7FFF_FFFF_FFFF_FFFF
  const BUF_LEN: nat := 20

  predicate IsInt64(n: int) { MIN_INT64 <= n <= MAX_INT64 }

  // Two's complement negation: the minimum is its own negative.
  function Negate64(n: int): int { if n == MIN_INT64 then MIN_INT64 else -n }

  // ---------- reading a decimal back ----------

  predicate IsDigits(s: string) { forall i {:trigger s[i]} :: 0 <= i < |s| ==> '0' <= s[i] <= '9' }

  function Digit(c: char): int { c as int - '0' as int }

  function Value(s: string): int {
    if s == "" then 0 else Value(s[..|s| - 1]) * 10 + Digit(s[|s| - 1])
  }

  function Decode(s: string): Option<int> {
    if s != "" && IsDigits(s) then Some(Value(s))
    else if |s| > 1 && s[0] == '-' && IsDigits(s[1..]) then Some(-Value(s[1..]))
    else None
  }

  // No leading zero, except in "0" itself, and no negative zero.
  predicate Canonical(s: string) {
    s == "0" || (s != "" && s[0] != '0' && (s[0] == '-' ==> |s| > 1 && s[1] != '0'))
  }

  function Pow10(n: nat): (p: int)
    ensures p >= 1
  {
    if n == 0 then 1 else 10 * Pow10(n - 1)
  }

  lemma {:induction false} ValueCons(c: char, s: string)
    ensures Value([c] + s) == Digit(c) * Pow10(|s|) + Value(s)
  {
    var t := [c] + s;
    if s == "" {
      assert t[..0] == "";
    } else {
      assert t[..|t| - 1] == [c] + s[..|s| - 1];
      ValueCons(c, s[..|s| - 1]);
    }
  }

  // Moving the last digit of n in front of what is already written.
  lemma ShiftDigit(n: int, p: int)
    requires n >= 0
    ensures n * p == n / 10 * (10 * p) + n % 10 * p
  {
    assert n == 10 * (n / 10) + n % 10;
  }

  lemma Pow10At19()
    ensures Pow10(19) == 10_000_000_000_000_000_000
  {
    assert Pow10(4) == 10_000;
    assert Pow10(8) == 100_000_000;
    assert Pow10(12) == 1_000_000_000_000;
    assert Pow10(16) == 10_000_000_000_000_000;
  }

  // What the loop keeps while it writes the digits of m > 0 from the back: rest is still to be written, in front
  // of the digits already there, and there is room for it and for a sign.
  predicate Pending(m: int, rest: int, written: string) {
    && |written| < BUF_LEN && IsDigits(written)
    && 0 <= rest < Pow10(BUF_LEN - 1 - |written|)
    && m == rest * Pow10(|written|) + Value(written)
    && (rest == 0 ==> written != "" && written[0] != '0')
  }

  function Chr(d: int): char
    requires 0 <= d <= 9
  {
    ('0' as int + d) as char
  }

  lemma PendingStep(m: int, rest: int, written: string)
    requires Pending(m, rest, written) && rest > 0
    ensures |written| + 1 < BUF_LEN
    ensures Pending(m, rest / 10, [Chr(rest % 10)] + written)
  {
    assert Pow10(0) == 1;
    var c := Chr(rest % 10);
    ValueCons(c, written);
    ShiftDigit(rest, Pow10(|written|));
    assert Pow10(|written| + 1) == 10 * Pow10(|written|);
    assert Pow10(BUF_LEN - 1 - |written|) == 10 * Pow10(BUF_LEN - 2 - |written|);
    assert |[c] + written| == |written| + 1;
  }

  lemma PendingInit(m: int)
    requires 0 < m <= MAX_INT64
    ensures Pending(m, m, "")
  {
    Pow10At19();
    assert Pow10(0) == 1;
    assert m * 1 == m;
  }

  lemma Finished(n0: int, digits: string)
    requires n0 != 0 && Pending(if n0 < 0 then -n0 else n0, 0, digits)
    ensures var s := if n0 < 0 then ['-'] + digits else digits; Decode(s) == Some(n0) && Canonical(s)
  {
    if n0 < 0 {
      assert (['-'] + digits)[1..] == digits;
    }
  }

  /** Every 64-bit integer but the least reads back as itself, without a leading zero; the least comes out as "-",
      which reads back as nothing. The write index stays inside the buffer. */
  method Itoa(n0: int) returns (s: string)
    requires IsInt64(n0)
    ensures Decode(s) == Some(n0) <==> n0 != MIN_INT64
    ensures n0 != MIN_INT64 ==> Canonical(s)
    ensures n0 == MIN_INT64 ==> s == "-"
  {
    if n0 == 0 {
      assert "0"[..0] == "";
      return "0";
    }
    var buf := new char[BUF_LEN](_ => '0');
    var i := buf.Length;
    var neg := n0 < 0;
    var n := n0;
    if neg {
      n := Negate64(n);
    }
    ghost var m := n;
    if m > 0 { PendingInit(m); }
    while n > 0
      invariant 1 <= i <= buf.Length == BUF_LEN
      invariant if m > 0 then Pending(m, n, buf[i..]) else n == m && i == BUF_LEN
    {
      PendingStep(m, n, buf[i..]);
      ghost var written := buf[i..];
      i := i - 1;
      buf[i] := ('0' as int + n % 10) as char;
      assert buf[i..] == [buf[i]] + written;
      n := n / 10;
    }
    ghost var digits := buf[i..];
    if neg {
      i := i - 1;
      buf[i] := '-';
      assert buf[i..] == ['-'] + digits;
    }
    s := buf[i..];
    if m > 0 { Finished(n0, digits); }
  }
}
