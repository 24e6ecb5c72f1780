/** Decimal numerals as `fmt.Sprintf("%d")` prints them, and the arithmetic of a truncation marker
    that prints how much was left out: the marker's own length depends on the number, and the number
    depends on the marker's length. */
module Decimal {
  import opened Utf8

  /** The bytes of an ASCII literal. */
  function Ascii(s: string): (b: seq<Byte>)
    ensures |b| == |s|
    ensures forall i :: 0 <= i < |b| ==> b[i] < 0x80
  {
    seq(|s|, i requires 0 <= i < |s| => (s[i] as int) % 0x80)
  }

  function Numeral(n: nat): (b: seq<Byte>)
    ensures |b| > 0
    ensures forall i :: 0 <= i < |b| ==> 0x30 <= b[i] <= 0x39
  {
    if n < 10 then [0x30 + n] else Numeral(n / 10) + [0x30 + n % 10]
  }

  /** Reading a numeral back. */
  function Value(b: seq<Byte>): int {
    if b == [] then 0 else Value(b[..|b| - 1]) * 10 + (b[|b| - 1] as int - 0x30)
  }

  lemma {:induction false} ValueOfNumeral(n: nat)
    ensures Value(Numeral(n)) == n
  {
    if n < 10 {
      assert Numeral(n)[..0] == [];
    } else {
      ValueOfNumeral(n / 10);
      assert Numeral(n)[..|Numeral(n)| - 1] == Numeral(n / 10);
    }
  }

  function Pow10(k: nat): (p: nat)
    ensures p >= 1
  {
    if k == 0 then 1 else 10 * Pow10(k - 1)
  }

  function Digits(n: nat): (d: nat)
    ensures d >= 1
  {
    |Numeral(n)|
  }

  lemma {:induction false} DigitsBound(n: nat)
    ensures n < Pow10(Digits(n))
    ensures n > 0 ==> Pow10(Digits(n) - 1) <= n
  {
    if n >= 10 {
      DigitsBound(n / 10);
      assert Digits(n) == Digits(n / 10) + 1;
    } else {
      assert Pow10(1) == 10 * Pow10(0);
    }
  }

  lemma {:induction false} Pow10Monotone(j: nat, k: nat)
    requires j <= k
    ensures Pow10(j) <= Pow10(k)
    ensures j < k ==> 10 * Pow10(j) <= Pow10(k)
    decreases k
  {
    if j < k { Pow10Monotone(j, k - 1); }
  }

  lemma DigitsMonotone(m: nat, n: nat)
    requires m <= n
    ensures Digits(m) <= Digits(n)
  {
    DigitsBound(m);
    DigitsBound(n);
    if Digits(n) < Digits(m) {
      if m > 0 { Pow10Monotone(Digits(n), Digits(m) - 1); }
    }
  }

  /** A number with at least `k` digits. */
  lemma AtLeastDigits(n: nat, k: nat)
    requires k >= 1 && Pow10(k - 1) <= n
    ensures Digits(n) >= k
  {
    DigitsBound(n);
    if Digits(n) < k { Pow10Monotone(Digits(n), k - 1); }
  }

  /** Every number that fits a signed 64-bit integer prints in at most 19 digits. */
  lemma DigitsOfInt64(n: nat)
    requires n < 0x8000_0000_0000_0000
    ensures Digits(n) <= 19
  {
    assert Pow10(19) == 10_000_000_000_000_000_000 by { PowersOfTen(); }
    DigitsBound(n);
    if Digits(n) > 19 { Pow10Monotone(19, Digits(n) - 1); }
  }

  lemma PowersOfTen()
    ensures Pow10(5) == 100_000
    ensures Pow10(10) == 10_000_000_000
    ensures Pow10(19) == 10_000_000_000_000_000_000
  {
    assert Pow10(3) == 1000;
    assert Pow10(5) == 100 * Pow10(3);
    assert Pow10(7) == 100 * Pow10(5);
    assert Pow10(9) == 100 * Pow10(7);
    assert Pow10(11) == 100 * Pow10(9);
    assert Pow10(13) == 100 * Pow10(11);
    assert Pow10(15) == 100 * Pow10(13);
    assert Pow10(17) == 100 * Pow10(15);
    assert Pow10(19) == 100 * Pow10(17);
  }

  /** `d` is the number of digits of the positive number `n`. */
  predicate HasDigits(n: nat, d: nat) { d >= 1 && Pow10(d - 1) <= n < Pow10(d) }

  lemma DigitsHas(n: nat)
    requires n > 0
    ensures HasDigits(n, Digits(n))
  {
    DigitsBound(n);
  }

  lemma MoreDigits(m: nat, n: nat, d: nat, e: nat)
    requires m <= n && HasDigits(m, d) && HasDigits(n, e)
    ensures d <= e
  {
    if e < d { Pow10Monotone(e, d - 1); }
  }

  lemma FewerDigits(n: nat, e: nat, k: nat)
    requires HasDigits(n, e)
    ensures e <= k ==> n < Pow10(k)
  {
    if e <= k { Pow10Monotone(e, k); }
  }

  /** Losing a few units costs a number of at least two digits at most one digit, and then leaves it
      just below a power of ten. */
  lemma SmallDrop(m: nat, n: nat, d: nat, e: nat)
    requires HasDigits(m, d) && HasDigits(n, e)
    requires 40 <= n <= m && m - n <= 26
    ensures d - 1 <= e <= d
    ensures e < d ==> d >= 3 && n >= Pow10(d - 1) - 26
  {
    MoreDigits(n, m, e, d);
    assert Pow10(1) == 10 && Pow10(2) == 100;
    FewerDigits(n, e, 1);
    if d > 2 {
      assert Pow10(d - 1) == 10 * Pow10(d - 2);
      Pow10Monotone(1, d - 2);
      FewerDigits(n, e, d - 2);
    }
  }

  lemma NoSecondDrop(m: nat, n: nat, d: nat, e: nat)
    requires d >= 3 && HasDigits(m, d - 1) && HasDigits(n, e)
    requires m >= Pow10(d - 1) - 26 && m - 7 <= n <= m
    ensures e == d - 1
  {
    MoreDigits(n, m, e, d - 1);
    assert Pow10(1) == 10;
    assert Pow10(d - 1) == 10 * Pow10(d - 2);
    Pow10Monotone(1, d - 2);
    FewerDigits(n, e, d - 2);
  }

  /** The marker iteration settles. `m0` is the first guess; each later guess is computed from the
      number of digits of the one before, shrinking by at most the digits lost plus `6` (the slack
      that cutting on character boundaries adds). The guess after next three repeats itself. */
  lemma MarkerSettles(m0: nat, m1: nat, m2: nat, m3: nat, m4: nat)
    requires Digits(m0) <= 20
    requires m1 <= m0 && m2 <= m1 && m3 <= m2
    requires m1 - m2 <= Digits(m0) - Digits(m1) + 6
    requires m2 - m3 <= Digits(m1) - Digits(m2) + 6
    requires Digits(m1) == Digits(m2) ==> m2 == m3
    requires Digits(m2) == Digits(m3) ==> m3 == m4
    requires m1 >= 40 && m2 >= 40 && m3 >= 40
    ensures m4 == m3
  {
    DigitsHas(m0);
    DigitsHas(m1);
    DigitsHas(m2);
    DigitsHas(m3);
    DigitsSettle(m0, m1, m2, m3, Digits(m0), Digits(m1), Digits(m2), Digits(m3));
  }

  lemma DigitsSettle(m0: nat, m1: nat, m2: nat, m3: nat, d0: nat, d1: nat, d2: nat, d3: nat)
    requires HasDigits(m0, d0) && HasDigits(m1, d1) && HasDigits(m2, d2) && HasDigits(m3, d3)
    requires d0 <= 20
    requires m1 <= m0 && m2 <= m1 && m3 <= m2
    requires m1 - m2 <= d0 - d1 + 6
    requires m2 - m3 <= d1 - d2 + 6
    requires m1 >= 40 && m2 >= 40 && m3 >= 40
    requires d1 == d2 ==> m2 == m3
    ensures d2 == d3
  {
    SmallDrop(m1, m2, d1, d2);
    if d2 < d1 { NoSecondDrop(m2, m3, d1, d3); }
    else { MoreDigits(m3, m2, d3, d2); MoreDigits(m2, m3, d2, d3); }
  }
}
