// Numbers in decimal, as `format!` writes and `parse` reads them.
module Decimal {
  import opened Events

  const U64_MAX: nat := 0xFFFF_FFFF_FFFF_FFFF

  predicate IsDigit(c: char) {
    '0' <= c <= '9'
  }

  function DigitOf(n: nat): (c: char)
    requires n < 10
    ensures IsDigit(c) && ValueOf(c) == n
  {
    '0' + n as char
  }

  function ValueOf(c: char): (n: nat)
    requires IsDigit(c)
    ensures n < 10 && (n == 0 <==> c == '0')
  {
    (c - '0') as nat
  }

  function Shown(n: nat): (text: string)
    ensures text != [] && forall i :: 0 <= i < |text| ==> IsDigit(text[i])
    ensures text[0] == '0' <==> n == 0
  {
    if n < 10 then [DigitOf(n)] else Shown(n / 10) + [DigitOf(n % 10)]
  }

  function ShownInt(n: int): string {
    if n < 0 then "-" + Shown(-n) else Shown(n)
  }

  predicate AllDigits(text: string) {
    forall i :: 0 <= i < |text| ==> IsDigit(text[i])
  }

  function Value(digits: string): nat
    requires AllDigits(digits)
  {
    if digits == [] then 0
    else Value(digits[..|digits| - 1]) * 10 + ValueOf(digits[|digits| - 1])
  }

  /// `str::parse::<u64>`: one or more digits after at most one `+`, whose value
  /// fits.
  function ParseU64(text: string): Option<nat> {
    var digits := if text != [] && text[0] == '+' then text[1..] else text;
    if digits == [] || !AllDigits(digits) || Value(digits) > U64_MAX then None else Some(Value(digits))
  }

  lemma {:induction false} ValueOfShown(n: nat)
    ensures AllDigits(Shown(n)) && Value(Shown(n)) == n
  {
    if n >= 10 {
      ValueOfShown(n / 10);
      var shown := Shown(n);
      assert shown[..|shown| - 1] == Shown(n / 10);
    } else {
      assert Shown(n)[..0] == [];
    }
  }

  /// Parsing what was shown gives it back, if 64 bits hold it; a `+` before it
  /// changes nothing, and no other sign is read.
  lemma ParseShown(n: nat)
    ensures ParseU64(Shown(n)) == if n <= 18446744073709551615 then Some(n) else None
    ensures ParseU64("+" + Shown(n)) == ParseU64(Shown(n))
    ensures ParseU64("-" + Shown(n)) == None
  {
    ValueOfShown(n);
    assert IsDigit(Shown(n)[0]);
    assert ("+" + Shown(n))[1..] == Shown(n);
    assert !IsDigit(("-" + Shown(n))[0]);
  }

  function PowerOf10(i: nat): (p: nat)
    ensures p > 0
  {
    if i == 0 then 1 else 10 * PowerOf10(i - 1)
  }

  lemma DividedTwice(n: nat, p: nat)
    requires p > 0
    ensures n / 10 / p == n / (10 * p)
  {
    var (q, r) := (n / 10, n % 10);
    var (a, b) := (q / p, q % p);
    assert n == (10 * p) * a + (10 * b + r);
    DividesOnce(n, 10 * p, a, 10 * b + r);
  }

  lemma DividesOnce(n: nat, d: nat, a: nat, rest: nat)
    requires rest < d && n == d * a + rest
    ensures n / d == a
  {
    var more: int := n / d - a;
    assert d * more == rest - n % d;
    AtLeastOnce(d, more);
  }

  lemma AtLeastOnce(d: nat, k: int)
    ensures (k >= 1 ==> d * k >= d) && (k <= -1 ==> d * k <= 0 - d)
  {
  }

  /// As many digits as there are powers of ten in the number...
  lemma {:induction false} LengthShown(n: nat, i: nat)
    ensures i < |Shown(n)| <==> i == 0 || PowerOf10(i) <= n
  {
    if n >= 10 && i > 0 {
      LengthShown(n / 10, i - 1);
    } else if i > 0 {
      assert PowerOf10(i) >= 10;
    }
  }

  /// ...and each the digit of its power, counted from the right.
  lemma {:induction false} DigitsShown(n: nat, i: nat)
    requires i < |Shown(n)|
    ensures Shown(n)[|Shown(n)| - 1 - i] == "0123456789"[n / PowerOf10(i) % 10]
  {
    if i > 0 {
      DigitsShown(n / 10, i - 1);
      DividedTwice(n, PowerOf10(i - 1));
    } else {
      assert n / 1 == n;
      assert Shown(n)[|Shown(n)| - 1] == DigitOf(n % 10);
    }
  }

  lemma IntShown(n: nat)
    ensures ShownInt(n) == Shown(n) && (n > 0 ==> ShownInt(0 - n) == "-" + Shown(n))
  {
  }

  lemma ShownTellsApart(a: nat, b: nat)
    requires Shown(a) == Shown(b)
    ensures a == b
  {
    ValueOfShown(a);
    ValueOfShown(b);
  }
}
