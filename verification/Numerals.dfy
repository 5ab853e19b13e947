// Big-endian positional notation, shared by the base58btc codec, by the byte
// conversions around it, and by the decimal rendering of nonces and numbers.
module Numerals {

  function Pow(base: nat, exponent: nat): nat {
    if exponent == 0 then 1 else Pow(base, exponent - 1) * base
  }

  function Value(digits: seq<nat>, base: nat): nat {
    if digits == [] then 0
    else Value(digits[..|digits| - 1], base) * base + digits[|digits| - 1]
  }

  // The shortest numeral of n; the empty numeral denotes zero.
  function Digits(n: nat, base: nat): seq<nat>
    requires base >= 2
    decreases n
  {
    if n == 0 then [] else Digits(n / base, base) + [n % base]
  }

  predicate IsNumeral(digits: seq<nat>, base: nat) {
    forall k :: 0 <= k < |digits| ==> digits[k] < base
  }

  predicate IsShortest(digits: seq<nat>, base: nat) {
    IsNumeral(digits, base) && (digits != [] ==> digits[0] != 0)
  }

  function Zeros(n: nat): (zeros: seq<nat>)
    ensures |zeros| == n && forall k :: 0 <= k < n ==> zeros[k] == 0
  {
    seq(n, k => 0)
  }

  // Splitting off the last digit; everything below goes through this step.
  lemma ValueOfLast(high: seq<nat>, low: nat, base: nat)
    ensures Value(high + [low], base) == Value(high, base) * base + low
  {
    var digits := high + [low];
    assert digits[..|digits| - 1] == high;
  }

  lemma DivMod(n: nat, base: nat)
    requires base >= 2
    ensures (n / base) * base + n % base == n
    ensures n % base < base
    ensures n != 0 ==> n / base < n
  {
  }

  lemma DivModUnique(q: nat, r: nat, base: nat)
    requires r < base
    ensures (q * base + r) / base == q && (q * base + r) % base == r
  {
    var n := q * base + r;
    var d := n / base - q;
    assert d * base == r - n % base;
    assert d >= 1 ==> d * base >= base;
    assert d <= -1 ==> d * base <= 0 - base;
  }

  lemma {:induction false} ValueOfDigits(n: nat, base: nat)
    requires base >= 2
    ensures IsShortest(Digits(n, base), base)
    ensures Value(Digits(n, base), base) == n
    ensures n != 0 ==> Digits(n, base) != []
    decreases n
  {
    if n != 0 {
      DivMod(n, base);
      ValueOfDigits(n / base, base);
      ValueOfLast(Digits(n / base, base), n % base, base);
      assert Digits(n, base) == Digits(n / base, base) + [n % base];
    }
  }

  lemma {:induction false} DigitsOfValue(digits: seq<nat>, base: nat)
    requires base >= 2 && IsShortest(digits, base)
    ensures Digits(Value(digits, base), base) == digits
    ensures digits != [] ==> Value(digits, base) != 0
    decreases |digits|
  {
    if digits != [] {
      var high, low := digits[..|digits| - 1], digits[|digits| - 1];
      assert digits == high + [low];
      assert high != [] ==> high[0] == digits[0];
      DigitsOfValue(high, base);
      ValueOfLast(high, low, base);
      DigitsOfLast(Value(high, base), low, base);
    }
  }

  lemma DigitsOfLast(high: nat, low: nat, base: nat)
    requires base >= 2 && low < base && (high != 0 || low != 0)
    ensures high * base + low != 0
    ensures Digits(high * base + low, base) == Digits(high, base) + [low]
  {
    DivModUnique(high, low, base);
    if high != 0 {
      assert high * base >= high;
    }
  }

  lemma {:induction false} ValueOfConcat(high: seq<nat>, low: seq<nat>, base: nat)
    ensures Value(high + low, base) == Value(high, base) * Pow(base, |low|) + Value(low, base)
    decreases |low|
  {
    if low == [] {
      assert high + low == high;
    } else {
      var front, last := low[..|low| - 1], low[|low| - 1];
      assert high + low == (high + front) + [last];
      assert low == front + [last];
      ValueOfLast(high + front, last, base);
      ValueOfLast(front, last, base);
      ValueOfConcat(high, front, base);
      Distribute(Value(high, base), Pow(base, |front|), Value(front, base), base);
    }
  }

  lemma Distribute(h: nat, p: nat, l: nat, base: nat)
    ensures (h * p + l) * base == h * (p * base) + l * base
  {
  }

  lemma {:induction false} ValueOfZeros(n: nat, base: nat)
    ensures Value(Zeros(n), base) == 0
    decreases n
  {
    if n != 0 {
      ValueOfZeros(n - 1, base);
      assert Zeros(n)[..n - 1] == Zeros(n - 1);
    }
  }

  lemma LeadingZerosKeepValue(n: nat, digits: seq<nat>, base: nat)
    ensures Value(Zeros(n) + digits, base) == Value(digits, base)
  {
    ValueOfConcat(Zeros(n), digits, base);
    ValueOfZeros(n, base);
  }

  lemma {:induction false} ValueBelowPow(digits: seq<nat>, base: nat)
    requires IsNumeral(digits, base)
    ensures Value(digits, base) < Pow(base, |digits|)
    decreases |digits|
  {
    if digits != [] {
      var high, low := digits[..|digits| - 1], digits[|digits| - 1];
      assert digits == high + [low];
      ValueBelowPow(high, base);
      ValueOfLast(high, low, base);
      BelowNextPower(Value(high, base), low, base, Pow(base, |high|));
      assert Pow(base, |digits|) == base * Pow(base, |high|);
    }
  }

  lemma BelowNextPower(value: nat, low: nat, base: nat, power: nat)
    requires value < power && low < base
    ensures value * base + low < base * power
  {
    MulMonotonic(value + 1, power, base);
    assert (value + 1) * base == value * base + base;
  }

  lemma MulMonotonic(a: nat, b: nat, c: nat)
    requires a <= b
    ensures a * c <= b * c
  {
  }

  lemma {:induction false} PowPositive(base: nat, exponent: nat)
    requires base > 0
    ensures Pow(base, exponent) > 0
  {
    if exponent != 0 {
      PowPositive(base, exponent - 1);
    }
  }

  lemma {:induction false} PowMonotonic(base: nat, small: nat, large: nat)
    requires base > 0 && small <= large
    ensures Pow(base, small) <= Pow(base, large)
    decreases large
  {
    if small < large {
      PowMonotonic(base, small, large - 1);
      PowPositive(base, large - 1);
      assert Pow(base, large - 1) * 1 <= Pow(base, large - 1) * base;
    }
  }

  lemma {:induction false} PowSum(base: nat, a: nat, b: nat)
    ensures Pow(base, a + b) == Pow(base, a) * Pow(base, b)
    decreases b
  {
    if b != 0 {
      PowSum(base, a, b - 1);
      assert (Pow(base, a) * Pow(base, b - 1)) * base == Pow(base, a) * (Pow(base, b - 1) * base);
    }
  }

  // A shortest numeral of n digits is at least base^(n-1).
  lemma ShortestAtLeastPow(digits: seq<nat>, base: nat)
    requires base >= 2 && IsShortest(digits, base) && digits != []
    ensures Pow(base, |digits| - 1) <= Value(digits, base)
  {
    var rest := digits[1..];
    assert digits == digits[..1] + rest;
    ValueOfConcat(digits[..1], rest, base);
    assert digits[..1][..0] == [];
    assert Value(digits[..1], base) == digits[0];
    MulMonotonic(1, digits[0], Pow(base, |rest|));
  }

  // ---- Decimal text ----

  function DigitChar(d: nat): char
    requires d < 10
  {
    ('0' as int + d) as char
  }

  // str(n) for a non-negative integer.
  function Decimal(n: nat): (text: string)
    ensures |text| > 0 && forall k :: 0 <= k < |text| ==> '0' <= text[k] <= '9'
  {
    if n == 0 then "0" else
      ValueOfDigits(n, 10);
      var digits := Digits(n, 10);
      seq(|digits|, k requires 0 <= k < |digits| => DigitChar(digits[k]))
  }

  // int(text) for a text of ASCII digits.
  function NumberOf(text: string): nat {
    Value(seq(|text|, k requires 0 <= k < |text| =>
                if '0' <= text[k] <= '9' then text[k] as int - '0' as int else 0), 10)
  }

  lemma DecimalRoundTrip(n: nat)
    ensures NumberOf(Decimal(n)) == n
    ensures n != 0 ==> Decimal(n)[0] != '0'
  {
    ValueOfDigits(n, 10);
    var text := Decimal(n);
    var read := seq(|text|, k requires 0 <= k < |text| =>
                      if '0' <= text[k] <= '9' then text[k] as int - '0' as int else 0);
    if n == 0 {
      assert read == Zeros(1);
      ValueOfZeros(1, 10);
    } else {
      assert read == Digits(n, 10);
    }
  }

  // A text of digits without a leading zero is the rendering of its number.
  lemma DecimalOfNumber(text: string)
    requires |text| > 0 && text[0] != '0'
    requires forall k :: 0 <= k < |text| ==> '0' <= text[k] <= '9'
    ensures NumberOf(text) != 0 && Decimal(NumberOf(text)) == text
  {
    var read := seq(|text|, k requires 0 <= k < |text| =>
                      if '0' <= text[k] <= '9' then text[k] as int - '0' as int else 0);
    assert IsShortest(read, 10);
    DigitsOfValue(read, 10);
  }

  lemma DecimalLength(n: nat, limit: nat)
    requires n < Pow(10, limit) && limit > 0
    ensures |Decimal(n)| <= limit
  {
    ValueOfDigits(n, 10);
    if n != 0 && |Digits(n, 10)| > limit {
      ShortestAtLeastPow(Digits(n, 10), 10);
      PowMonotonic(10, limit, |Digits(n, 10)| - 1);
    }
  }
}
