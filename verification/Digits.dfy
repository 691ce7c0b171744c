/** Decimal numbers as the request parser and the range parser read them, and as std::to_string writes them. */
module Digits {
  import opened Wrappers

  predicate IsDigit(c: char) {
    '0' <= c <= '9'
  }

  predicate AllDigits(s: string) {
    forall i :: 0 <= i < |s| ==> IsDigit(s[i])
  }

  function DigitValue(c: char): nat
    requires IsDigit(c)
  {
    c as int - '0' as int
  }

  /** The number a run of digits denotes. */
  function Value(s: string): nat
    requires AllDigits(s)
  {
    if s == [] then 0 else Value(s[..|s| - 1]) * 10 + DigitValue(s[|s| - 1])
  }

  /** A longer run of digits never denotes a smaller number. */
  lemma {:induction false} ValueMonotone(s: string, n: nat)
    requires AllDigits(s) && n <= |s|
    ensures Value(s[..n]) <= Value(s)
    decreases |s|
  {
    if n < |s| {
      ValueMonotone(s[..|s| - 1], n);
      assert s[..|s| - 1][..n] == s[..n];
    } else {
      assert s[..n] == s;
    }
  }

  /** What a bounded digit parser must return: the value, when there is one and it fits. */
  function Parsed(s: string, max: nat): Option<nat> {
    if s != [] && AllDigits(s) && Value(s) <= max then Some(Value(s)) else None
  }

  /** parse_digits and parse_content_length: the same loop under two different caps. The
      accumulator never exceeds the cap, so it cannot wrap a 64-bit word. */
  method ParseDigits(s: string, max: nat) returns (r: Option<nat>)
    requires 9 <= max
    ensures r == Parsed(s, max)
  {
    if s == [] {
      return None;
    }
    var value := 0;
    for i := 0 to |s|
      invariant AllDigits(s[..i])
      invariant value == Value(s[..i]) <= max
    {
      if s[i] < '0' || s[i] > '9' {
        return None;
      }
      var digit := DigitValue(s[i]);
      assert s[..i + 1][..i] == s[..i] && s[..i + 1][i] == s[i];
      if value > (max - digit) / 10 {
        if AllDigits(s) {
          ValueMonotone(s, i + 1);
        }
        return None;
      }
      value := value * 10 + digit;
    }
    assert s[..|s|] == s;
    return Some(value);
  }

  function DigitChar(d: nat): char
    requires d < 10
  {
    '0' + d as char
  }

  /** std::to_string of an unsigned integer. */
  function ToString(n: nat): (s: string)
    ensures s != [] && AllDigits(s)
  {
    if n < 10 then [DigitChar(n)] else ToString(n / 10) + [DigitChar(n % 10)]
  }

  lemma {:induction false} ToStringValue(n: nat)
    ensures Value(ToString(n)) == n
  {
    if n < 10 {
      assert [DigitChar(n)][..0] == [];
    } else {
      ToStringValue(n / 10);
      var s := ToString(n / 10);
      assert (s + [DigitChar(n % 10)])[..|s|] == s;
    }
  }

  /** Printing then parsing gives the number back, under any cap that admits it. */
  lemma ParsedToString(n: nat, max: nat)
    requires n <= max
    ensures Parsed(ToString(n), max) == Some(n)
  {
    ToStringValue(n);
  }

  function Pow10(k: nat): nat {
    if k == 0 then 1 else 10 * Pow10(k - 1)
  }

  lemma {:induction false} ToStringShort(n: nat, k: nat)
    requires k >= 1 && n < Pow10(k)
    ensures |ToString(n)| <= k
    decreases k
  {
    if n >= 10 {
      ToStringShort(n / 10, k - 1);
    }
  }

  /** A 64-bit number has at most 20 digits. */
  lemma SixtyFourBits(n: nat)
    requires n < 0x1_0000_0000_0000_0000
    ensures |ToString(n)| <= 20
  {
    assert Pow10(5) == 100000;
    assert Pow10(10) == 100000 * 100000;
    assert Pow10(15) == 100000 * 100000 * 100000;
    assert Pow10(20) == 100000 * 100000 * 100000 * 100000;
    ToStringShort(n, 20);
  }
}
