// Durable evidence for one in-flight signed delivery.
module Delivery {
  import opened Wrappers
  import opened Numerals
  import opened DidKey
  import opened Messages
  import opened Protocol

  datatype DeliveryError =
    | NotPositive | InvalidDeliveryDid | InvalidDeliveryNonce | InvalidText | NotExactText | InvalidSignature
    | UnsupportedSchema | UnexpectedFields | InvalidStatus | InvalidDigest | DigestMismatch
    | PendingWithReply | ReplyNotAfterInput | DifferentAcknowledgement | JournalOfOtherRoom | InvalidRoomName
    | AlreadyPrepared | MissingJournal | JournalWriteFailed | RetryRequiresApply | DifferentIdentity | RetryNotAcknowledged

  datatype Status = Pending | Acknowledged

  datatype DeliveryRecord = DeliveryRecord(
    status: Status, roomDigest: Digest<string>, inputSequence: int, did: string, nonce: nat,
    text: string, textDigest: Digest<string>, signature: Signature<string>, replySequence: Option<int>)
  {
    // The posted record is this envelope.
    predicate Matches(m: RoomMessage) {
      m.sender == did && m.nonce == Some(Decimal(nonce)) && m.text == text
    }

    function VerifyForRoom(room: string): Result<(), DeliveryError> {
      if !IsRoom(room) then Err(InvalidRoomName)
      else if roomDigest != Sha256(room) then Err(JournalOfOtherRoom)
      else if !Verifies(did, Canonical(room, nonce, text), signature) then Err(InvalidSignature)
      else Ok(())
    }

    function Acknowledge(sequence: int): Result<DeliveryRecord, DeliveryError> {
      if sequence <= 0 then Err(NotPositive)
      else if sequence <= inputSequence then Err(ReplyNotAfterInput)
      else if status.Acknowledged? then
        if replySequence != Some(sequence) then Err(DifferentAcknowledgement) else Ok(this)
      else Ok(this.(status := Acknowledged, replySequence := Some(sequence)))
    }
  }

  function ExactText(text: string): Result<string, DeliveryError> {
    match Sweep(text)
    case Err(_) => Err(InvalidText)
    case Ok(swept) => if swept != text then Err(NotExactText) else Ok(swept)
  }

  function Create(
      room: string, inputSequence: int, did: string, nonce: nat, text: string, signature: Signature<string>)
    : Result<DeliveryRecord, DeliveryError>
  {
    if !IsRoom(room) then Err(InvalidRoomName)
    else if inputSequence <= 0 then Err(NotPositive)
    else if !IsDid(did) then Err(InvalidDeliveryDid)
    else if ValidNonce(nonce).Err? then Err(InvalidDeliveryNonce)
    else
      match ExactText(text)
      case Err(e) => Err(e)
      case Ok(_) =>
        var record := DeliveryRecord(
          Pending, Sha256(room), inputSequence, did, nonce, text, Sha256(text), signature, None);
        match record.VerifyForRoom(room)
        case Err(e) => Err(e)
        case Ok(_) => Ok(record)
  }

  // What the signer returns is always accepted: the signing identity is a
  // canonical key, the input is a room sequence, the swept text is exact.
  lemma SignedIsCreatable(did: string, room: string, nonce: nat, text: string, inputSequence: int)
    requires KeyFromDid(did).Ok? && inputSequence > 0
    requires SignRoomMessage(did, room, nonce, text).Ok?
    ensures var signed := SignRoomMessage(did, room, nonce, text).value;
            Create(room, inputSequence, did, nonce, signed.0, signed.1).Ok?
  {
    var swept := SignRoomMessage(did, room, nonce, text).value.0;
    SweepIsIdempotent(text);
    assert ExactText(swept).Ok? && ValidNonce(nonce).Ok? && IsDid(did);
  }

  // ---- The stored payload ----

  // Hex digests and base64url signatures are JSON strings of their own shape.
  datatype Json =
    | JNull | JBool(flag: bool) | JInt(number: int) | JString(text: string)
    | JDigest(digest: Digest<string>) | JSignature(signature: Signature<string>) | JOther

  type Payload = map<string, Json>

  const DELIVERY_SCHEMA := "technocore-safe-agent-delivery-v1"

  const PAYLOAD_KEYS: set<string> :=
    {"schema", "status", "room_sha256", "input_sequence", "did", "nonce", "text", "text_sha256", "signature",
     "reply_sequence"}

  function StatusText(status: Status): string {
    if status.Pending? then "pending" else "acknowledged"
  }

  function ToPayload(record: DeliveryRecord): Payload {
    map["schema" := JString(DELIVERY_SCHEMA),
        "status" := JString(StatusText(record.status)),
        "room_sha256" := JDigest(record.roomDigest),
        "input_sequence" := JInt(record.inputSequence),
        "did" := JString(record.did),
        "nonce" := JInt(record.nonce),
        "text" := JString(record.text),
        "text_sha256" := JDigest(record.textDigest),
        "signature" := JSignature(record.signature),
        "reply_sequence" := if record.replySequence.Some? then JInt(record.replySequence.value) else JNull]
  }

  function StatusOf(value: Json): Result<Status, DeliveryError> {
    if value == JString("pending") then Ok(Pending)
    else if value == JString("acknowledged") then Ok(Acknowledged)
    else Err(InvalidStatus)
  }

  function ReplyOf(status: Status, value: Json): Result<Option<int>, DeliveryError> {
    if status.Pending? then if value.JNull? then Ok(None) else Err(PendingWithReply)
    else if value.JInt? && value.number > 0 then Ok(Some(value.number))
    else Err(NotPositive)
  }

  function FromPayload(payload: Payload): Result<DeliveryRecord, DeliveryError> {
    if "schema" !in payload || payload["schema"] != JString(DELIVERY_SCHEMA) then Err(UnsupportedSchema)
    else if payload.Keys != PAYLOAD_KEYS then Err(UnexpectedFields)
    else
      match StatusOf(payload["status"])
      case Err(e) => Err(e)
      case Ok(status) =>
        if !payload["room_sha256"].JDigest? || !payload["text_sha256"].JDigest? then Err(InvalidDigest)
        else if !payload["text"].JString? || ExactText(payload["text"].text).Err? then Err(InvalidText)
        else if Sha256(payload["text"].text) != payload["text_sha256"].digest then Err(DigestMismatch)
        else
          match ReplyOf(status, payload["reply_sequence"])
          case Err(e) => Err(e)
          case Ok(reply) =>
            if !payload["input_sequence"].JInt? || payload["input_sequence"].number <= 0 then Err(NotPositive)
            else if !payload["did"].JString? || !IsDid(payload["did"].text) then Err(InvalidDeliveryDid)
            else if !payload["nonce"].JInt? || payload["nonce"].number < 0 || ValidNonce(payload["nonce"].number).Err? then
              Err(InvalidDeliveryNonce)
            else if !payload["signature"].JSignature? then Err(InvalidSignature)
            else if reply.Some? && reply.value <= payload["input_sequence"].number then Err(ReplyNotAfterInput)
            else
              Ok(DeliveryRecord(
                   status, payload["room_sha256"].digest, payload["input_sequence"].number, payload["did"].text,
                   payload["nonce"].number, payload["text"].text, payload["text_sha256"].digest,
                   payload["signature"].signature, reply))
  }

  // The records that can be in a journal.
  predicate WellFormedRecord(r: DeliveryRecord) {
    && r.inputSequence > 0 && IsDid(r.did) && ValidNonce(r.nonce).Ok?
    && ExactText(r.text).Ok? && r.textDigest == Sha256(r.text)
    && match r.status
       case Pending => r.replySequence.None?
       case Acknowledged => r.replySequence.Some? && r.inputSequence < r.replySequence.value
  }

  // Exactly the well-formed records survive being written and read back.
  lemma RecordRoundTrip(r: DeliveryRecord)
    ensures FromPayload(ToPayload(r)) == Ok(r) <==> WellFormedRecord(r)
  {
    assert ToPayload(r).Keys == PAYLOAD_KEYS;
  }

  // An accepted payload is the rendering of the record it is read as.
  lemma PayloadRoundTrip(payload: Payload)
    requires FromPayload(payload).Ok?
    ensures ToPayload(FromPayload(payload).value) == payload
    ensures WellFormedRecord(FromPayload(payload).value)
  {
    var again := ToPayload(FromPayload(payload).value);
    assert again.Keys == PAYLOAD_KEYS;
    forall key | key in PAYLOAD_KEYS
      ensures again[key] == payload[key]
    {
    }
  }

  // Creating and acknowledging stay inside the well-formed records.
  lemma ReachableRecordsAreWellFormed(
      room: string, inputSequence: int, did: string, nonce: nat, text: string, signature: Signature<string>,
      r: DeliveryRecord, sequence: int)
    ensures var created := Create(room, inputSequence, did, nonce, text, signature);
            created.Ok? ==> WellFormedRecord(created.value)
    ensures WellFormedRecord(r) && r.Acknowledge(sequence).Ok? ==>
              WellFormedRecord(r.Acknowledge(sequence).value)
              && r.Acknowledge(sequence).value.Acknowledge(sequence) == r.Acknowledge(sequence)
  {
  }

  // ---- The journal file ----

  class DeliveryJournal {
    // The file, if it exists.
    var stored: Option<Payload>

    constructor (stored: Option<Payload>)
      ensures this.stored == stored
    {
      this.stored := stored;
    }

    method Load() returns (r: Result<Option<DeliveryRecord>, DeliveryError>)
      ensures stored.None? ==> r == Ok(None)
      ensures stored.Some? ==>
                match FromPayload(stored.value)
                case Ok(record) => r == Ok(Some(record))
                case Err(e) => r == Err(e)
    {
      if stored.None? {
        return Ok(None);
      }
      var parsed := FromPayload(stored.value);
      if parsed.Err? {
        return Err(parsed.error);
      }
      r := Ok(Some(parsed.value));
    }

    method RequireEmpty() returns (r: Result<(), DeliveryError>)
      ensures r.Ok? <==> stored.None?
    {
      var loaded := Load();
      if loaded.Err? {
        return Err(loaded.error);
      }
      r := if loaded.value.Some? then Err(AlreadyPrepared) else Ok(());
    }

    // A write replaces the file atomically; one that reports an error may or
    // may not have done so.
    method Write(record: DeliveryRecord) returns (r: Result<(), DeliveryError>)
      modifies this
      ensures stored == Some(ToPayload(record)) || (r.Err? && stored == old(stored))
    {
      if * {
        return Err(JournalWriteFailed);
      }
      stored := Some(ToPayload(record));
      r := Ok(());
      if * {
        r := Err(JournalWriteFailed);
      }
    }

    method Prepare(record: DeliveryRecord) returns (r: Result<(), DeliveryError>)
      modifies this
      ensures r.Ok? ==> old(stored).None? && stored == Some(ToPayload(record))
      ensures r.Err? ==> stored == old(stored) || (old(stored).None? && stored == Some(ToPayload(record)))
    {
      if stored.Some? {
        return Err(AlreadyPrepared);
      }
      r := Write(record);
    }

    method Acknowledge(sequence: int) returns (r: Result<DeliveryRecord, DeliveryError>)
      modifies this
      ensures r.Ok? ==>
                old(stored).Some? && FromPayload(old(stored).value).Ok?
                && FromPayload(old(stored).value).value.Acknowledge(sequence) == r
                && stored == Some(ToPayload(r.value))
      ensures r.Err? ==>
                || stored == old(stored)
                || (old(stored).Some? && FromPayload(old(stored).value).Ok?
                    && var acknowledged := FromPayload(old(stored).value).value.Acknowledge(sequence);
                       acknowledged.Ok? && stored == Some(ToPayload(acknowledged.value)))
    {
      var loaded := Load();
      if loaded.Err? {
        return Err(loaded.error);
      }
      if loaded.value.None? {
        return Err(MissingJournal);
      }
      r := loaded.value.value.Acknowledge(sequence);
      if r.Ok? {
        var written := Write(r.value);
        if written.Err? {
          r := Err(written.error);
        }
      }
    }

    method Clear() returns (r: Result<(), DeliveryError>)
      modifies this
      ensures stored.None? || (r.Err? && stored == old(stored))
    {
      if stored.None? {
        return Ok(());
      }
      if * {
        return Err(JournalWriteFailed);
      }
      stored := None;
      r := Ok(());
      if * {
        r := Err(JournalWriteFailed);
      }
    }
  }
}
