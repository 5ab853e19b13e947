// Ed25519 did:key identifiers, encoded and decoded around the base58btc codec.
module DidKey {
  import opened Wrappers
  import opened Numerals
  import opened Base58

  datatype DidError = InvalidDid | NotCanonicalKey | DerivedInvalidDid

  const MULTICODEC_ED25519: seq<byte> := [0xed, 0x01]
  const METHOD := "did:key:z"

  // DID_PATTERN
  predicate IsDid(did: string) {
    |did| == 56 && did[..9] == METHOD && did[9..12] == "6Mk" && OverAlphabet(did[12..])
  }

  function DidFromKey(key: seq<byte>): Result<string, DidError>
    requires |key| == 32
  {
    var did := METHOD + Encoded(MULTICODEC_ED25519 + key);
    if IsDid(did) then Ok(did) else Err(DerivedInvalidDid)
  }

  function KeyFromDid(did: string): Result<seq<byte>, DidError> {
    if !IsDid(did) then Err(InvalidDid)
    else
      match Decoded(did[|METHOD|..])
      case Err(_) => Err(InvalidDid)
      case Ok(decoded) =>
        if |decoded| != 34 || decoded[..2] != MULTICODEC_ED25519 then Err(NotCanonicalKey)
        else Ok(decoded[2..])
  }

  // The pattern pins three digits after the multibase prefix, which is right
  // for every key because of two inequalities between powers of 58 and 2.
  lemma PatternBounds()
    ensures 18023 * Pow(58, 44) <= 0xed01 * Pow(256, 32)
    ensures 0xed02 * Pow(256, 32) <= 18024 * Pow(58, 44)
    ensures Pow(58, 46) == 3364 * Pow(58, 44) && Pow(58, 47) == 195112 * Pow(58, 44)
  {
    PowersOf58();
    PowersOf256();
    PowSum(58, 44, 2);
    PowSum(58, 44, 3);
  }

  const POW_58_11: nat := 24986644000165537792
  const POW_58_22: nat := 624332378391008467754527498760580235264
  const POW_58_44: nat := 389790918707373377135528568990913592653094657612049369038476873218241589149696
  const POW_256_16: nat := 340282366920938463463374607431768211456
  const POW_256_32: nat := 115792089237316195423570985008687907853269984665640564039457584007913129639936

  lemma PowersOf58()
    ensures Pow(58, 2) == 3364 && Pow(58, 3) == 195112 && Pow(58, 44) == POW_58_44
  {
    Power58Small();
    PowSum(58, 5, 5);
    PowSum(58, 10, 1);
    assert Pow(58, 11) == POW_58_11;
    PowSum(58, 11, 11);
    assert Pow(58, 22) == POW_58_22;
    PowSum(58, 22, 22);
  }

  lemma Power58Small()
    ensures Pow(58, 1) == 58 && Pow(58, 2) == 3364 && Pow(58, 3) == 195112 && Pow(58, 5) == 656356768
  {
    PowSum(58, 3, 2);
  }

  lemma PowersOf256()
    ensures Pow(256, 32) == POW_256_32
  {
    assert Pow(256, 2) == 65536;
    PowSum(256, 2, 2);
    PowSum(256, 4, 4);
    PowSum(256, 8, 8);
    assert Pow(256, 16) == POW_256_16;
    PowSum(256, 16, 16);
  }

  lemma KeyValue(key: seq<byte>)
    requires |key| == 32
    ensures 0xed01 * Pow(256, 32) <= Value(Unsigned(MULTICODEC_ED25519 + key), 256) < 0xed02 * Pow(256, 32)
  {
    var high, low := [0xed, 0x01], Unsigned(key);
    assert Unsigned(MULTICODEC_ED25519 + key) == high + low;
    ValueOfConcat(high, low, 256);
    ValueBelowPow(low, 256);
    assert Value(high, 256) == 0xed01 by {
      assert high == [0xed] + [0x01] && [0xed] == [] + [0xed];
      ValueOfLast([0xed], 0x01, 256);
      ValueOfLast([], 0xed, 256);
    }
  }

  // A number between 18023 and 18024 times 58^44 has 47 base-58 digits, and
  // the first three are 5, 20 and 43.
  lemma LeadingDigits(number: nat)
    requires 18023 * Pow(58, 44) <= number < 18024 * Pow(58, 44)
    ensures |Digits(number, 58)| == 47
    ensures Digits(number, 58)[..3] == [5, 20, 43]
  {
    var digits := Digits(number, 58);
    HasLength47(number);
    ValueOfDigits(number, 58);
    var high, low := digits[..3], digits[3..];
    assert digits == high + low;
    ValueOfConcat(high, low, 58);
    ValueBelowPow(low, 58);
    QuotientIs(Value(high, 58), Value(low, 58), 18023, Pow(58, 44));
    First18023();
    SameNumeral(high, [5, 20, 43], 58);
  }

  lemma SameNumeral(a: seq<nat>, b: seq<nat>, base: nat)
    requires base >= 2 && IsShortest(a, base) && IsShortest(b, base) && Value(a, base) == Value(b, base)
    ensures a == b
  {
    DigitsOfValue(a, base);
    DigitsOfValue(b, base);
  }

  lemma First18023()
    ensures IsShortest([5, 20, 43], 58) && Value([5, 20, 43], 58) == 18023
  {
    ValueOfThree(5, 20, 43, 58);
  }

  lemma ValueOfThree(a: nat, b: nat, c: nat, base: nat)
    ensures Value([a, b, c], base) == (a * base + b) * base + c
  {
    assert [a, b, c] == [a, b] + [c] && [a, b] == [a] + [b] && [a] == [] + [a];
    ValueOfLast([a, b], c, base);
    ValueOfLast([a], b, base);
    ValueOfLast([], a, base);
  }

  lemma HasLength47(number: nat)
    requires 18023 * Pow(58, 44) <= number < 18024 * Pow(58, 44)
    ensures |Digits(number, 58)| == 47
  {
    PatternBounds();
    PowPositive(58, 44);
    ValueOfDigits(number, 58);
    var digits := Digits(number, 58);
    LengthBounds(digits, 58, number);
    if |digits| > 47 {
      PowMonotonic(58, 47, |digits| - 1);
    } else if |digits| < 47 {
      PowMonotonic(58, |digits|, 46);
    }
  }

  lemma QuotientIs(high: nat, low: nat, expected: nat, power: nat)
    requires low < power && expected * power <= high * power + low < (expected + 1) * power
    ensures high == expected
  {
    assert high >= expected + 1 ==> high * power >= (expected + 1) * power;
    assert high + 1 <= expected ==> (high + 1) * power <= expected * power;
  }

  // Every 32-byte key has a DID of the accepted form, and that DID names it.
  lemma EveryKeyHasDid(key: seq<byte>)
    requires |key| == 32
    ensures DidFromKey(key).Ok?
    ensures KeyFromDid(DidFromKey(key).value) == Ok(key)
  {
    var data := MULTICODEC_ED25519 + key;
    var text := Encoded(data);
    KeyText(key);
    EncodedIndices(data);
    var did := METHOD + text;
    assert did[9..] == text;
    assert did[9..12] == text[..3] && did[12..] == text[3..];
    DecodeEncode(data);
    assert data[2..] == key;
  }

  lemma KeyNumber(key: seq<byte>)
    requires |key| == 32
    ensures 18023 * Pow(58, 44) <= Value(Unsigned(MULTICODEC_ED25519 + key), 256) < 18024 * Pow(58, 44)
  {
    KeyValue(key);
    PatternBounds();
  }

  lemma KeyText(key: seq<byte>)
    requires |key| == 32
    ensures var text := Encoded(MULTICODEC_ED25519 + key);
            |text| == 47 && text[..3] == "6Mk"
  {
    var data := MULTICODEC_ED25519 + key;
    var number := Value(Unsigned(data), 256);
    KeyNumber(key);
    SpelledKey(number);
    assert Leading(data, 0) == 0;
    assert Encoded(data) == Spelled(number);
  }

  lemma SpelledKey(number: nat)
    requires 18023 * Pow(58, 44) <= number < 18024 * Pow(58, 44)
    ensures |Spelled(number)| == 47 && Spelled(number)[..3] == "6Mk"
  {
    LeadingDigits(number);
    var first := Digits(number, 58)[..3];
    assert first[0] == 5 && first[1] == 20 && first[2] == 43;
  }

  // Every DID the agent accepts re-encodes to itself, so no two accepted DIDs
  // name the same key.
  lemma AcceptedDidIsCanonical(did: string)
    requires KeyFromDid(did).Ok?
    ensures |KeyFromDid(did).value| == 32
    ensures DidFromKey(KeyFromDid(did).value) == Ok(did)
  {
    var text := did[|METHOD|..];
    EncodeDecode(text);
    var decoded := Decoded(text).value;
    assert decoded == MULTICODEC_ED25519 + decoded[2..];
    assert did == METHOD + text;
  }

  lemma AcceptedDidsDistinguishKeys(a: string, b: string)
    requires KeyFromDid(a).Ok? && KeyFromDid(b).Ok?
    ensures KeyFromDid(a).value == KeyFromDid(b).value <==> a == b
  {
    AcceptedDidIsCanonical(a);
    AcceptedDidIsCanonical(b);
  }
}
