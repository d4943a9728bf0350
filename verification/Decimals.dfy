/** Decimal text: what it is, how it is read back, and how long it gets. */
module Decimals {

  function Digit(d: int): char
    requires 0 <= d < 10
  {
    "0123456789"[d]
  }

  function Digits(n: nat): string {
    if n < 10 then [Digit(n)] else Digits(n / 10) + [Digit(n % 10)]
  }

  function Text(n: int): string {
    if n < 0 then "-" + Digits(-n) else Digits(n)
  }

  function DigitValue(c: char): int {
    c as int - '0' as int
  }

  function ReadDigits(s: string): int {
    if s == "" then 0 else 10 * ReadDigits(s[..|s| - 1]) + DigitValue(s[|s| - 1])
  }

  function Read(s: string): int {
    if s != "" && s[0] == '-' then -ReadDigits(s[1..]) else ReadDigits(s)
  }

  /** Digits are digits, read back to the number, and start with a zero only for zero itself. */
  lemma {:induction false} DigitsRead(n: nat)
    ensures ReadDigits(Digits(n)) == n
    ensures Digits(n) != "" && forall i :: 0 <= i < |Digits(n)| ==> '0' <= Digits(n)[i] <= '9'
    ensures Digits(n)[0] == '0' ==> n == 0 && Digits(n) == "0"
  {
    if n < 10 {
      assert Digits(n)[..0] == "";
      assert DigitValue(Digit(n)) == n;
    } else {
      DigitsRead(n / 10);
      assert Digits(n)[..|Digits(n)| - 1] == Digits(n / 10);
      assert DigitValue(Digit(n % 10)) == n % 10;
    }
  }

  /** Decimal notation: digits only, at least one, and no zero in front of another digit. */
  predicate IsDecimal(s: string) {
    s != "" && (s[0] == '0' ==> s == "0") && forall i :: 0 <= i < |s| ==> '0' <= s[i] <= '9'
  }

  /** The emitted text of any integer reads back to it: decimal notation, behind a sign exactly when it is negative. */
  lemma TextReadsBack(n: int)
    ensures Read(Text(n)) == n
    ensures 0 <= n ==> IsDecimal(Text(n))
    ensures n < 0 ==> Text(n) != "" && Text(n)[0] == '-' && IsDecimal(Text(n)[1..]) && Text(n)[1] != '0'
  {
    hide Digits, ReadDigits;
    DigitsRead(if n < 0 then -n else n);
    if n < 0 {
      assert Text(n)[1..] == Digits(-n);
    }
  }

  lemma TextInjective(m: int, n: int)
    requires Text(m) == Text(n)
    ensures m == n
  {
    TextReadsBack(m);
    TextReadsBack(n);
  }

  function Pow10(k: nat): nat {
    if k == 0 then 1 else 10 * Pow10(k - 1)
  }

  lemma {:induction false} DigitsLength(n: nat, k: nat)
    requires 0 < k && n < Pow10(k)
    ensures |Digits(n)| <= k
    decreases k
  {
    if 10 <= n {
      assert n < 10 * Pow10(k - 1);
      DigitsLength(n / 10, k - 1);
    }
  }

  /** Every value of every 64-bit type, signed or unsigned, takes at most twenty characters. */
  lemma TextOf64Bits(n: int)
    requires -0x8000_0000_0000_0000 <= n < 0x1_0000_0000_0000_0000
    ensures |Text(n)| <= 20
  {
    assert Pow10(4) == 10000;
    assert Pow10(8) == 100000000;
    assert Pow10(12) == 1000000000000;
    assert Pow10(16) == 10000000000000000;
    assert Pow10(19) == 10000000000000000000;
    if n < 0 {
      DigitsLength(-n, 19);
    } else {
      DigitsLength(n, 20);
    }
  }
}
