/** Decimal text: `str`, `int` and `zfill` on the digit strings subscriber identities are made of. */
module Decimal {
  function Pow10(n: nat): nat {
    if n == 0 then 1 else 10 * Pow10(n - 1)
  }

  predicate IsDigits(s: string) {
    forall i :: 0 <= i < |s| ==> '0' <= s[i] <= '9'
  }

  predicate IsNumber(s: string) {
    s != [] && IsDigits(s)
  }

  function Digit(d: nat): char
    requires d < 10
  {
    ('0' as int + d) as char
  }

  // str(n)
  function Str(n: nat): (s: string)
    ensures IsNumber(s)
  {
    if n < 10 then [Digit(n)] else Str(n / 10) + [Digit(n % 10)]
  }

  // int(s)
  function Value(s: string): nat
    requires IsDigits(s)
  {
    if s == [] then 0 else 10 * Value(s[..|s| - 1]) + (s[|s| - 1] as int - '0' as int)
  }

  function Zeros(n: nat): (s: string)
    ensures |s| == n && forall i :: 0 <= i < n ==> s[i] == '0'
  {
    seq(n, _ => '0')
  }

  // s.zfill(width), for a string of digits
  function ZFill(s: string, width: nat): string {
    if |s| < width then Zeros(width - |s|) + s else s
  }

  lemma ValueAppend(s: string, c: char)
    requires IsDigits(s)
    requires '0' <= c <= '9'
    ensures IsDigits(s + [c])
    ensures Value(s + [c]) == 10 * Value(s) + (c as int - '0' as int)
  {
    assert (s + [c])[..|s|] == s;
  }

  lemma {:induction false} ValueOfStr(n: nat)
    ensures Value(Str(n)) == n
  {
    if n < 10 {
      ValueAppend([], Digit(n));
      assert [] + [Digit(n)] == [Digit(n)];
    } else {
      ValueOfStr(n / 10);
      ValueAppend(Str(n / 10), Digit(n % 10));
    }
  }

  lemma {:induction false} ValueOfZeros(n: nat, s: string)
    requires IsDigits(s)
    ensures IsDigits(Zeros(n) + s)
    ensures Value(Zeros(n) + s) == Value(s)
  {
    if s == [] {
      if n > 0 {
        ValueOfZeros(n - 1, []);
        assert Zeros(n - 1) + [] == Zeros(n - 1);
        assert Zeros(n) + [] == Zeros(n - 1) + ['0'];
        ValueAppend(Zeros(n - 1), '0');
      }
    } else {
      var front, last := s[..|s| - 1], s[|s| - 1];
      ValueOfZeros(n, front);
      assert Zeros(n) + s == (Zeros(n) + front) + [last];
      assert s == front + [last];
      ValueAppend(Zeros(n) + front, last);
      ValueAppend(front, last);
    }
  }

  // Padding a number does not change what it reads as
  lemma ValueOfPadded(n: nat, width: nat)
    ensures IsNumber(ZFill(Str(n), width))
    ensures Value(ZFill(Str(n), width)) == n
  {
    ValueOfStr(n);
    if |Str(n)| < width { ValueOfZeros(width - |Str(n)|, Str(n)); }
  }

  lemma {:induction false} StrLength(n: nat, width: nat)
    requires width > 0
    ensures |Str(n)| <= width <==> n < Pow10(width)
  {
    if n < 10 {
      Pow10Grows(1, width);
    } else if width == 1 {
      assert |Str(n / 10)| > 0;
    } else {
      StrLength(n / 10, width - 1);
    }
  }

  lemma {:induction false} Pow10Grows(a: nat, b: nat)
    requires a <= b
    ensures Pow10(a) <= Pow10(b)
  {
    if a < b { Pow10Grows(a, b - 1); }
  }

  // The zero-padded text keeps the width exactly while the number fits in it
  lemma PaddedLength(n: nat, width: nat)
    requires width > 0
    ensures |ZFill(Str(n), width)| == width <==> n < Pow10(width)
  {
    StrLength(n, width);
  }
}
