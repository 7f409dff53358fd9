/**
  Unpadded decimal text of integers, as printf's `%d` conversion writes it,
  and the reader that takes such text back to the integer.
 */
module Decimal {
  import opened Wrappers

  predicate IsDigit(c: char) {
    '0' <= c <= '9'
  }

  predicate AllDigits(s: string) {
    forall i :: 0 <= i < |s| ==> IsDigit(s[i])
  }

  function DigitValue(c: char): nat
    requires IsDigit(c)
  {
    c as int - '0' as int
  }

  function DigitChar(d: nat): (c: char)
    requires d < 10
    ensures IsDigit(c) && DigitValue(c) == d
  {
    ('0' as int + d) as char
  }

  function Pow10(k: nat): (p: nat)
    ensures p >= 1
  {
    if k == 0 then 1 else 10 * Pow10(k - 1)
  }

  /** The digits of `n`, most significant first, with no leading zero. */
  function Digits(n: nat): (s: string)
    ensures |s| >= 1 && AllDigits(s)
    ensures (s[0] == '0') == (n == 0)
    ensures (|s| == 1) == (n < 10)
    decreases n
  {
    if n < 10 then [DigitChar(n)] else Digits(n / 10) + [DigitChar(n % 10)]
  }

  /** What `%d` writes for `n`: a minus sign before the magnitude when `n` is negative. */
  function Text(n: int): (s: string)
    ensures |s| >= 1
    ensures (s[0] == '-') == (n < 0)
    ensures AllDigits(s[1..])
    ensures n >= 0 ==> AllDigits(s)
  {
    if n < 0 then "-" + Digits(-n) else Digits(n)
  }

  /** The number a string of digits denotes. */
  function Value(s: string): nat
    requires AllDigits(s)
    decreases |s|
  {
    if s == [] then 0 else 10 * Value(s[..|s| - 1]) + DigitValue(s[|s| - 1])
  }

  /** Reads an optional minus sign followed by at least one digit. */
  function Parse(s: string): (r: Option<int>)
    ensures r.Some? ==> |s| >= 1 && (r.value < 0 ==> s[0] == '-')
  {
    if |s| >= 2 && s[0] == '-' && AllDigits(s[1..]) then Some(-(Value(s[1..]) as int))
    else if |s| >= 1 && AllDigits(s) then Some(Value(s))
    else None
  }

  /** Reading the digits of `n` gives `n` back. */
  lemma {:induction false} ValueOfDigits(n: nat)
    ensures Value(Digits(n)) == n
    decreases n
  {
    var s := Digits(n);
    if n < 10 {
      assert s[..|s| - 1] == [];
    } else {
      assert s[..|s| - 1] == Digits(n / 10);
      ValueOfDigits(n / 10);
    }
  }

  /** `%d` output is read back as the integer that was printed. */
  lemma {:induction false} ParseText(n: int)
    ensures Parse(Text(n)) == Some(n)
  {
    var s := Text(n);
    if n < 0 {
      var d := Digits(-n);
      assert s == "-" + d && s[1..] == d;
      ValueOfDigits(-n);
      assert |s| >= 2 && s[0] == '-' && AllDigits(s[1..]);
      assert Parse(s) == Some(-(Value(d) as int));
    } else {
      assert s == Digits(n) && s[0] != '-';
      ValueOfDigits(n);
      assert Parse(s) == Some(Value(s));
    }
  }

  /** `%d` output holds only digits and a leading minus sign, so no separator character. */
  lemma TextAvoids(n: int, c: char)
    requires !IsDigit(c) && c != '-'
    ensures c !in Text(n)
  {
    var s := Text(n);
    forall i | 0 < i < |s|
      ensures s[i] != c
    {
      assert s[i] == s[1..][i - 1];
    }
  }

  /** A number below `10^k` takes at most `k` digits. */
  lemma {:induction false} DigitsAtMost(n: nat, k: nat)
    requires 1 <= k && n < Pow10(k)
    ensures |Digits(n)| <= k
    decreases n
  {
    if n >= 10 {
      assert k >= 2;
      DigitsAtMost(n / 10, k - 1);
    }
  }

  /** A number of at least `10^(k-1)` takes at least `k` digits. */
  lemma {:induction false} DigitsAtLeast(n: nat, k: nat)
    requires 1 <= k && Pow10(k - 1) <= n
    ensures |Digits(n)| >= k
    decreases k
  {
    if k >= 2 {
      DigitsAtLeast(n / 10, k - 1);
    }
  }

  /** Width of `%d` output for a value in the range `-(10^k - 1) .. 10^k - 1`. */
  lemma TextAtMost(n: int, k: nat)
    requires 1 <= k && -(Pow10(k) as int) < n < Pow10(k)
    ensures |Text(n)| <= k + 1
    ensures n >= 0 ==> |Text(n)| <= k
  {
    if n < 0 {
      DigitsAtMost(-n, k);
    } else {
      DigitsAtMost(n, k);
    }
  }
}
