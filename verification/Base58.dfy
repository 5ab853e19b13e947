// The base58btc codec: draft-msporny-base58, sections 3 and 4.
module Base58 {
  import opened Wrappers
  import opened Numerals

  newtype byte = b: int | 0 <= b < 256

  datatype CodecError = EmptyValue | InvalidCharacter

  const ALPHABET := "123456789" + "ABCDEFGH" + "JKLMN" + "PQRSTUVWXYZ" + "abcdefghijk" + "mnopqrstuvwxyz"

  function Symbol(d: nat): char
    requires d < 58
  {
    if d < 9 then ('1' as int + d) as char
    else if d < 17 then ('A' as int + (d - 9)) as char
    else if d < 22 then ('J' as int + (d - 17)) as char
    else if d < 33 then ('P' as int + (d - 22)) as char
    else if d < 44 then ('a' as int + (d - 33)) as char
    else ('m' as int + (d - 44)) as char
  }

  function Index(c: char): Option<nat> {
    if '1' <= c <= '9' then Some(c as int - '1' as int)
    else if 'A' <= c <= 'H' then Some(9 + c as int - 'A' as int)
    else if 'J' <= c <= 'N' then Some(17 + c as int - 'J' as int)
    else if 'P' <= c <= 'Z' then Some(22 + c as int - 'P' as int)
    else if 'a' <= c <= 'k' then Some(33 + c as int - 'a' as int)
    else if 'm' <= c <= 'z' then Some(44 + c as int - 'm' as int)
    else None
  }

  predicate Consecutive(run: string, first: char) {
    forall k :: 0 <= k < |run| ==> run[k] as int == first as int + k
  }

  // Symbol spells the alphabet of the draft, and Index is ALPHABET.index.
  lemma AlphabetInOrder()
    ensures |ALPHABET| == 58
    ensures forall d :: 0 <= d < 58 ==> ALPHABET[d] == Symbol(d)
    ensures forall c: char {:trigger Index(c)} :: Index(c).None? ==> c !in ALPHABET
  {
    assert |"123456789"| == 9 && Consecutive("123456789", '1');
    assert |"ABCDEFGH"| == 8 && Consecutive("ABCDEFGH", 'A');
    assert |"JKLMN"| == 5 && Consecutive("JKLMN", 'J');
    assert |"PQRSTUVWXYZ"| == 11 && Consecutive("PQRSTUVWXYZ", 'P');
    assert |"abcdefghijk"| == 11 && Consecutive("abcdefghijk", 'a');
    assert |"mnopqrstuvwxyz"| == 14 && Consecutive("mnopqrstuvwxyz", 'm');
    forall d | 0 <= d < 58
      ensures ALPHABET[d] == Symbol(d)
    {
    }
    forall c: char | Index(c).None?
      ensures c !in ALPHABET
    {
      forall d | 0 <= d < 58
        ensures ALPHABET[d] != c
      {
        SymbolIndex(d);
      }
    }
  }

  lemma SymbolIndex(d: nat)
    requires d < 58
    ensures Index(Symbol(d)) == Some(d)
  {
  }

  lemma IndexSymbol(c: char)
    requires Index(c).Some?
    ensures Index(c).value < 58 && Symbol(Index(c).value) == c
  {
  }

  predicate OverAlphabet(text: string) {
    forall k :: 0 <= k < |text| ==> Index(text[k]).Some?
  }

  function Symbols(digits: seq<nat>): (text: string)
    requires IsNumeral(digits, 58)
    ensures |text| == |digits|
    ensures forall k :: 0 <= k < |text| ==> text[k] == Symbol(digits[k])
  {
    seq(|digits|, k requires 0 <= k < |digits| => Symbol(digits[k]))
  }

  function Indices(text: string): (digits: seq<nat>)
    requires OverAlphabet(text)
    ensures |digits| == |text|
    ensures forall k :: 0 <= k < |text| ==> Index(text[k]) == Some(digits[k])
  {
    seq(|text|, k requires 0 <= k < |text| => Index(text[k]).value)
  }

  function Unsigned(data: seq<byte>): (digits: seq<nat>)
    ensures |digits| == |data| && IsNumeral(digits, 256)
    ensures forall k :: 0 <= k < |data| ==> digits[k] == data[k] as nat
  {
    seq(|data|, k requires 0 <= k < |data| => data[k] as nat)
  }

  function ToBytes(digits: seq<nat>): (data: seq<byte>)
    requires IsNumeral(digits, 256)
    ensures |data| == |digits| && Unsigned(data) == digits
  {
    seq(|digits|, k requires 0 <= k < |digits| => digits[k] as byte)
  }

  // len(s) - len(s.lstrip(x))
  function Leading<T(==)>(s: seq<T>, x: T): (n: nat)
    ensures n <= |s|
    ensures forall k :: 0 <= k < n ==> s[k] == x
    ensures n < |s| ==> s[n] != x
  {
    if s != [] && s[0] == x then 1 + Leading(s[1..], x) else 0
  }

  lemma {:induction false} LeadingIs<T>(s: seq<T>, x: T, n: nat)
    requires n <= |s| && (forall k :: 0 <= k < n ==> s[k] == x) && (n < |s| ==> s[n] != x)
    ensures Leading(s, x) == n
  {
    if n > 0 {
      LeadingIs(s[1..], x, n - 1);
    }
  }

  function Repeat<T>(x: T, n: nat): (s: seq<T>)
    ensures |s| == n && forall k :: 0 <= k < n ==> s[k] == x
  {
    seq(n, k => x)
  }

  // ---- What the two loops compute ----

  function Encoded(data: seq<byte>): string {
    Repeat('1', Leading(data, 0)) + Spelled(Value(Unsigned(data), 256))
  }

  function Spelled(number: nat): (text: string)
    ensures |text| == |Digits(number, 58)|
    ensures forall k :: 0 <= k < |text| ==> Digits(number, 58)[k] < 58 && text[k] == Symbol(Digits(number, 58)[k])
  {
    ValueOfDigits(number, 58);
    Symbols(Digits(number, 58))
  }

  function Decoded(text: string): Result<seq<byte>, CodecError> {
    if text == "" then Err(EmptyValue)
    else if !OverAlphabet(text) then Err(InvalidCharacter)
    else Ok(Repeat(0, Leading(text, '1')) + BigEndian(Value(Indices(text), 58)))
  }

  function BigEndian(number: nat): (data: seq<byte>)
    ensures Unsigned(data) == Digits(number, 256)
  {
    ValueOfDigits(number, 256);
    ToBytes(Digits(number, 256))
  }

  method Encode(data: seq<byte>) returns (text: string)
    ensures text == Encoded(data)
  {
    var leadingZeroes := Leading(data, 0);
    var number := Value(Unsigned(data), 256);
    ghost var whole := number;
    var encoded := "";
    while number != 0
      invariant Spelled(number) + encoded == Spelled(whole)
    {
      SpelledStep(number);
      var remainder := number % 58;
      number := number / 58;
      encoded := [Symbol(remainder)] + encoded;
    }
    text := Repeat('1', leadingZeroes) + encoded;
  }

  lemma SpelledStep(number: nat)
    requires number != 0
    ensures Spelled(number) == Spelled(number / 58) + [Symbol(number % 58)]
  {
    assert Digits(number, 58) == Digits(number / 58, 58) + [number % 58];
  }

  method Decode(text: string) returns (data: Result<seq<byte>, CodecError>)
    ensures data == Decoded(text)
  {
    if text == "" {
      return Err(EmptyValue);
    }
    var number := 0;
    for i := 0 to |text|
      invariant OverAlphabet(text[..i])
      invariant number == Value(Indices(text[..i]), 58)
    {
      var digit := Index(text[i]);
      if digit.None? {
        return Err(InvalidCharacter);
      }
      assert Indices(text[..i + 1]) == Indices(text[..i]) + [digit.value];
      ValueOfLast(Indices(text[..i]), digit.value, 58);
      number := number * 58 + digit.value;
    }
    assert text[..|text|] == text;
    var decoded := if number != 0 then BigEndian(number) else [];
    data := Ok(Repeat(0, Leading(text, '1')) + decoded);
  }

  // number.to_bytes((number.bit_length() + 7) // 8, "big") is the shortest
  // base-256 numeral: its length is the byte count computed from the bit length.
  lemma ByteLength(number: nat)
    ensures |BigEndian(number)| == (|Digits(number, 2)| + 7) / 8
  {
    var bytes, bits := Digits(number, 256), Digits(number, 2);
    ValueOfDigits(number, 256);
    ValueOfDigits(number, 2);
    if number != 0 {
      LengthBounds(bytes, 256, number);
      LengthBounds(bits, 2, number);
      PowOf256(|bytes|);
      PowOf256(|bytes| - 1);
      SameBracket(number, |bits|, |bytes|);
    }
  }

  lemma SameBracket(number: nat, bits: nat, bytes: nat)
    requires bits > 0 && Pow(2, bits - 1) <= number < Pow(2, bits)
    requires bytes > 0 && Pow(2, 8 * (bytes - 1)) <= number < Pow(2, 8 * bytes)
    ensures bytes == (bits + 7) / 8
  {
    var low, high := 8 * (bytes - 1), 8 * bytes;
    if bits > high {
      PowMonotonic(2, high, bits - 1);
    } else if bits <= low {
      PowMonotonic(2, bits, low);
    }
  }

  lemma LengthBounds(digits: seq<nat>, base: nat, number: nat)
    requires base >= 2 && IsShortest(digits, base) && digits != [] && Value(digits, base) == number
    ensures Pow(base, |digits| - 1) <= number < Pow(base, |digits|)
  {
    ShortestAtLeastPow(digits, base);
    ValueBelowPow(digits, base);
  }

  lemma {:induction false} PowOf256(n: nat)
    ensures Pow(256, n) == Pow(2, 8 * n)
  {
    if n != 0 {
      PowOf256(n - 1);
      PowSum(2, 8 * (n - 1), 8);
      assert Pow(2, 8) == 256 by {
        assert Pow(2, 4) == 16;
      }
    }
  }

  // ---- Round trips ----

  // A numeral with k leading zeros and a nonzero rest is k zeros and the
  // shortest numeral of its value.
  lemma SplitLeading(digits: seq<nat>, base: nat)
    requires base >= 2 && IsNumeral(digits, base)
    ensures digits == Zeros(Leading(digits, 0)) + Digits(Value(digits, base), base)
  {
    var n := Leading(digits, 0);
    var rest := digits[n..];
    assert digits == Zeros(n) + rest;
    LeadingZerosKeepValue(n, rest, base);
    DigitsOfValue(rest, base);
  }

  lemma LeadingUnsigned(data: seq<byte>)
    ensures Leading(Unsigned(data), 0) == Leading(data, 0)
  {
    LeadingIs(Unsigned(data), 0, Leading(data, 0));
  }

  lemma UnsignedInjective(a: seq<byte>, b: seq<byte>)
    requires Unsigned(a) == Unsigned(b)
    ensures a == b
  {
    forall k | 0 <= k < |a|
      ensures a[k] == b[k]
    {
      assert Unsigned(a)[k] == Unsigned(b)[k];
    }
  }

  // What the encoder writes, read back as digits.
  lemma EncodedIndices(data: seq<byte>)
    ensures var text, n := Encoded(data), Leading(data, 0);
            OverAlphabet(text)
            && Indices(text) == Zeros(n) + Digits(Value(Unsigned(data), 256), 58)
            && Leading(text, '1') == n
  {
    var text, n, number := Encoded(data), Leading(data, 0), Value(Unsigned(data), 256);
    var spelled := Spelled(number);
    forall k | 0 <= k < |text|
      ensures Index(text[k]) == Some((Zeros(n) + Digits(number, 58))[k])
    {
      if k >= n {
        SymbolIndex(Digits(number, 58)[k - n]);
      }
    }
    ValueOfDigits(number, 58);
    LeadingIs(text, '1', n);
  }

  // decode(encode(b)) == b for every non-empty byte string.
  lemma DecodeEncode(data: seq<byte>)
    requires data != []
    ensures Decoded(Encoded(data)) == Ok(data)
  {
    var n, number := Leading(data, 0), Value(Unsigned(data), 256);
    EncodedIndices(data);
    LeadingZerosKeepValue(n, Digits(number, 58), 58);
    ValueOfDigits(number, 58);
    SplitLeading(Unsigned(data), 256);
    LeadingUnsigned(data);
    var read := Repeat(0 as byte, n) + BigEndian(number);
    assert Unsigned(read) == Zeros(n) + Unsigned(BigEndian(number));
    UnsignedInjective(read, data);
    assert Encoded(data) != "";
  }

  // encode(decode(s)) == s for every non-empty string over the alphabet.
  lemma EncodeDecode(text: string)
    requires text != "" && OverAlphabet(text)
    ensures Decoded(text).Ok? && Encoded(Decoded(text).value) == text
  {
    var data := Decoded(text).value;
    DecodedValue(text);
    EncodedIndices(data);
    TextIndices(text);
    IndicesInjective(Encoded(data), text);
  }

  lemma TextIndices(text: string)
    requires OverAlphabet(text)
    ensures Indices(text) == Zeros(Leading(text, '1')) + Digits(Value(Indices(text), 58), 58)
  {
    var n := Leading(text, '1');
    forall k | 0 <= k < |text|
      ensures Indices(text)[k] == 0 <==> text[k] == '1'
    {
      IndexSymbol(text[k]);
    }
    LeadingIs(Indices(text), 0, n);
    assert IsNumeral(Indices(text), 58);
    SplitLeading(Indices(text), 58);
  }

  lemma IndicesInjective(a: string, b: string)
    requires OverAlphabet(a) && OverAlphabet(b) && Indices(a) == Indices(b)
    ensures a == b
  {
    forall k | 0 <= k < |a|
      ensures a[k] == b[k]
    {
      assert Indices(a)[k] == Indices(b)[k];
      IndexSymbol(a[k]);
      IndexSymbol(b[k]);
    }
  }

  lemma DecodedValue(text: string)
    requires text != "" && OverAlphabet(text)
    ensures var data := Decoded(text).value;
            Leading(data, 0) == Leading(text, '1')
            && Value(Unsigned(data), 256) == Value(Indices(text), 58)
  {
    var n, number := Leading(text, '1'), Value(Indices(text), 58);
    var data, body := Decoded(text).value, Digits(number, 256);
    assert Unsigned(data) == Zeros(n) + body;
    ValueOfDigits(number, 256);
    LeadingZerosKeepValue(n, body, 256);
    if n < |data| {
      assert Unsigned(data)[n] == body[0];
    }
    LeadingIs(data, 0, n);
  }
}
