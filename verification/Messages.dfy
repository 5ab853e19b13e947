// Room names, nonces, swept text and the canonical signed form of a message.
module Messages {
  import opened Wrappers
  import opened Numerals
  import opened DidKey

  datatype MessageError = InvalidRoom | InvalidNonce | NoVisibleText | TextTooLong

  // Ed25519 as an ideal: a signature that verifies determines its signer and
  // its message, and everything else of the right shape verifies for nothing.
  datatype Signature<T> = Ed25519(signer: string, message: T) | Unverifiable(bits: nat)

  // SHA-256 as an ideal: a digest determines its preimage, if it has one.
  datatype Digest<T> = Sha256(preimage: T) | NoPreimage(bits: nat)

  predicate Verifies<T(==)>(did: string, message: T, signature: Signature<T>) {
    KeyFromDid(did).Ok? && signature == Ed25519(did, message)
  }

  // ROOM_PATTERN
  predicate IsRoom(room: string) {
    && 1 <= |room| <= 48
    && IsLowerAlphanumeric(room[0])
    && forall k :: 0 <= k < |room| ==> IsLowerAlphanumeric(room[k]) || room[k] == '_' || room[k] == '-'
  }

  predicate IsLowerAlphanumeric(c: char) {
    'a' <= c <= 'z' || '0' <= c <= '9'
  }

  // NONCE_PATTERN
  predicate IsNonceText(text: string) {
    1 <= |text| <= 19 && forall k :: 0 <= k < |text| ==> '0' <= text[k] <= '9'
  }

  const MAX_NONCE: nat := 9_999_999_999_999_999_999

  function ValidNonce(nonce: nat): Result<string, MessageError> {
    if IsNonceText(Decimal(nonce)) then Ok(Decimal(nonce)) else Err(InvalidNonce)
  }

  // The numeric limit the state enforces is the length limit of the protocol.
  lemma NonceFits(nonce: nat)
    ensures ValidNonce(nonce).Ok? <==> nonce <= MAX_NONCE
  {
    assert Pow(10, 19) == MAX_NONCE + 1 by {
      PowSum(10, 4, 4);
      PowSum(10, 8, 8);
      PowSum(10, 16, 3);
      assert Pow(10, 3) == 1000 && Pow(10, 4) == 10000;
    }
    if nonce <= MAX_NONCE {
      DecimalLength(nonce, 19);
    } else if |Decimal(nonce)| <= 19 {
      ValueOfDigits(nonce, 10);
      ValueBelowPow(Digits(nonce, 10), 10);
      PowMonotonic(10, |Digits(nonce, 10)|, 19);
    }
  }

  // ---- The protocol sweep ----

  // Unicode categories Cc, Cf, Cs, Co, Zl and Zp.
  predicate IsInvisible(c: char) {
    var u := c as int;
    u <= 0x1f || 0x7f <= u <= 0x9f || u == 0xad || 0x600 <= u <= 0x605 || u == 0x61c || u == 0x6dd
    || u == 0x70f || 0x890 <= u <= 0x891 || u == 0x8e2 || u == 0x180e || 0x200b <= u <= 0x200f
    || 0x2028 <= u <= 0x202e || 0x2060 <= u <= 0x2064 || 0x2066 <= u <= 0x206f || 0xd800 <= u <= 0xf8ff
    || u == 0xfeff || 0xfff9 <= u <= 0xfffb || u == 0x110bd || u == 0x110cd || 0x13430 <= u <= 0x1343f
    || 0x1bca0 <= u <= 0x1bca3 || 0x1d173 <= u <= 0x1d17a || u == 0xe0001 || 0xe0020 <= u <= 0xe007f
    || 0xf0000 <= u <= 0xffffd || 0x100000 <= u <= 0x10fffd
  }

  // str.isspace for one character
  predicate IsSpace(c: char) {
    var u := c as int;
    0x9 <= u <= 0xd || 0x1c <= u <= 0x20 || u == 0x85 || u == 0xa0 || u == 0x1680 || 0x2000 <= u <= 0x200a
    || 0x2028 <= u <= 0x2029 || u == 0x202f || u == 0x205f || u == 0x3000
  }

  function Blanked(text: string): (blanked: string)
    ensures |blanked| == |text|
    ensures forall k :: 0 <= k < |text| ==> !IsInvisible(blanked[k])
  {
    seq(|text|, k requires 0 <= k < |text| => if IsInvisible(text[k]) then ' ' else text[k])
  }

  function Strip(text: string): (stripped: string)
    ensures stripped != "" ==> !IsSpace(stripped[0]) && !IsSpace(stripped[|stripped| - 1])
    ensures forall c :: c in stripped ==> c in text
    decreases |text|
  {
    if text == "" then ""
    else if IsSpace(text[0]) then Strip(text[1..])
    else if IsSpace(text[|text| - 1]) then Strip(text[..|text| - 1])
    else text
  }

  const TEXT_LIMIT := 4096

  function Sweep(text: string): Result<string, MessageError> {
    var swept := Strip(Blanked(text));
    if swept == "" then Err(NoVisibleText)
    else if |swept| > TEXT_LIMIT then Err(TextTooLong)
    else Ok(swept)
  }

  // Sweeping is idempotent, so text returned by the signer is already exact.
  lemma SweepIsIdempotent(text: string)
    requires Sweep(text).Ok?
    ensures Sweep(Sweep(text).value) == Sweep(text)
  {
    var swept := Sweep(text).value;
    forall k | 0 <= k < |swept|
      ensures !IsInvisible(swept[k])
    {
      assert swept[k] in Blanked(text);
    }
    assert Blanked(swept) == swept;
  }

  // ---- Signing ----

  function Canonical(room: string, nonce: nat, text: string): string {
    room + "|" + Decimal(nonce) + "|" + text
  }

  function SignRoomMessage(did: string, room: string, nonce: nat, text: string)
    : Result<(string, Signature<string>), MessageError>
  {
    if !IsRoom(room) then Err(InvalidRoom)
    else match ValidNonce(nonce)
      case Err(e) => Err(e)
      case Ok(_) =>
        match Sweep(text)
        case Err(e) => Err(e)
        case Ok(swept) => Ok((swept, Ed25519(did, Canonical(room, nonce, swept))))
  }

  // The bytes that are signed determine room, nonce and text, so a signature
  // cannot be moved to another room or read with another nonce.
  lemma CanonicalIsInjective(room: string, nonce: nat, text: string, room': string, nonce': nat, text': string)
    requires IsRoom(room) && IsRoom(room')
    requires Canonical(room, nonce, text) == Canonical(room', nonce', text')
    ensures room == room' && nonce == nonce' && text == text'
  {
    var tail, tail' := Decimal(nonce) + "|" + text, Decimal(nonce') + "|" + text';
    assert Canonical(room, nonce, text) == room + "|" + tail;
    assert Canonical(room', nonce', text') == room' + "|" + tail';
    SplitAtBar(room, tail, room', tail');
    SplitAtBar(Decimal(nonce), text, Decimal(nonce'), text');
    DecimalRoundTrip(nonce);
    DecimalRoundTrip(nonce');
  }

  lemma SplitAtBar(a: string, rest: string, a': string, rest': string)
    requires a + "|" + rest == a' + "|" + rest'
    requires '|' !in a && '|' !in a'
    ensures a == a' && rest == rest'
  {
    var whole, whole' := a + "|" + rest, a' + "|" + rest';
    assert whole[|a|] == '|' && whole'[|a'|] == '|';
    assert forall k :: 0 <= k < |a| ==> whole[k] != '|';
    assert forall k :: 0 <= k < |a'| ==> whole'[k] != '|';
    assert |a| == |a'|;
    assert whole[..|a|] == a && whole'[..|a'|] == a';
    assert whole[|a| + 1..] == rest && whole'[|a'| + 1..] == rest';
  }
}
