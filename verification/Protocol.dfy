// Room records and room snapshots, and the checks a server response must pass.
module Protocol {
  import opened Wrappers
  import opened Numerals
  import opened DidKey
  import opened Messages

  datatype RoomMessage = RoomMessage(seqno: int, sender: string, text: string, nonce: Option<string>)
  {
    predicate IsSigned() {
      nonce.Some? && IsDid(sender)
    }
  }

  datatype RoomSnapshot = RoomSnapshot(
    room: string, firstSeq: int, lastSeq: int, messages: seq<RoomMessage>, generation: int)

  // One member of a decoded JSON object. Other stands for booleans, floats,
  // lists and objects.
  datatype Field = Absent | Null | Number(value: int) | Text(text: string) | Other

  datatype RawMessage = NotAnObject | RawMessage(seqno: Field, sender: Field, text: Field, nonce: Field)

  datatype RawSnapshot = RawSnapshot(
    room: Field, lastSeq: Field, messages: Option<seq<RawMessage>>, firstSeq: Field, generation: Field)

  datatype ResponseError =
    | DifferentRoom | InvalidLastSeq | InvalidMessages | InvalidFirstSeq | InvalidGeneration
    | InvalidMessage | NotStrictlyOrdered | OutsideAdvertisedRange

  function ParseNonce(field: Field): Result<Option<string>, ResponseError> {
    match field
    case Absent => Ok(None)
    case Null => Ok(None)
    case Text(text) => if IsNonceText(text) then Ok(Some(text)) else Err(InvalidMessage)
    case Number(value) =>
      if value >= 0 && ValidNonce(value).Ok? then Ok(Some(Decimal(value))) else Err(InvalidMessage)
    case Other => Err(InvalidMessage)
  }

  function ParseMessage(raw: RawMessage): Result<RoomMessage, ResponseError> {
    if raw.NotAnObject? then Err(InvalidMessage)
    else if !raw.seqno.Number? || raw.seqno.value <= 0 then Err(InvalidMessage)
    else if !raw.sender.Text? || !raw.text.Text? then Err(InvalidMessage)
    else
      match ParseNonce(raw.nonce)
      case Err(e) => Err(e)
      case Ok(nonce) => Ok(RoomMessage(raw.seqno.value, raw.sender.text, raw.text.text, nonce))
  }

  function ParseMessages(raws: seq<RawMessage>): Result<seq<RoomMessage>, ResponseError> {
    if raws == [] then Ok([])
    else
      match ParseMessage(raws[0])
      case Err(e) => Err(e)
      case Ok(first) =>
        match ParseMessages(raws[1..])
        case Err(e) => Err(e)
        case Ok(rest) => Ok([first] + rest)
  }

  function Sequences(messages: seq<RoomMessage>): (sequences: seq<int>)
    ensures |sequences| == |messages|
    ensures forall k :: 0 <= k < |messages| ==> sequences[k] == messages[k].seqno
  {
    seq(|messages|, k requires 0 <= k < |messages| => messages[k].seqno)
  }

  // sequences == sorted(sequences)
  predicate IsSorted(s: seq<int>) {
    forall k :: 1 <= k < |s| ==> s[k - 1] <= s[k]
  }

  // len(sequences) == len(set(sequences))
  predicate HasNoDuplicates(s: seq<int>) {
    |set x | x in s| == |s|
  }

  predicate Increasing(s: seq<int>) {
    forall j, k :: 0 <= j < k < |s| ==> s[j] < s[k]
  }

  function ParseSnapshot(raw: RawSnapshot, room: string): Result<RoomSnapshot, ResponseError> {
    if raw.room != Text(room) then Err(DifferentRoom)
    else if !raw.lastSeq.Number? || raw.lastSeq.value < 0 then Err(InvalidLastSeq)
    else if raw.messages.None? then Err(InvalidMessages)
    else
      var raws := raw.messages.value;
      var firstSeq :=
        if raw.firstSeq.Absent? then Number(if raws == [] then 0 else 1)
        else if raw.firstSeq.Null? && raws == [] then Number(0)
        else raw.firstSeq;
      var generation := if raw.generation.Absent? then Number(0) else raw.generation;
      if !firstSeq.Number? || firstSeq.value < 0 then Err(InvalidFirstSeq)
      else if !generation.Number? || generation.value < 0 then Err(InvalidGeneration)
      else
        match ParseMessages(raws)
        case Err(e) => Err(e)
        case Ok(messages) =>
          var sequences := Sequences(messages);
          var n := |sequences|;
          if !IsSorted(sequences) || !HasNoDuplicates(sequences) then Err(NotStrictlyOrdered)
          else if n > 0 && (sequences[n - 1] > raw.lastSeq.value || sequences[0] < firstSeq.value) then
            Err(OutsideAdvertisedRange)
          else Ok(RoomSnapshot(room, firstSeq.value, raw.lastSeq.value, messages, generation.value))
  }

  // What the responder and the recovery command rely on.
  predicate WellFormed(snapshot: RoomSnapshot) {
    && snapshot.firstSeq >= 0 && snapshot.lastSeq >= 0 && snapshot.generation >= 0
    && Increasing(Sequences(snapshot.messages))
    && forall m :: m in snapshot.messages ==>
                     m.seqno > 0 && snapshot.firstSeq <= m.seqno <= snapshot.lastSeq
                     && (m.nonce.Some? ==> IsNonceText(m.nonce.value))
  }

  lemma {:induction false} ParsedMessages(raws: seq<RawMessage>)
    requires ParseMessages(raws).Ok?
    ensures forall m :: m in ParseMessages(raws).value ==>
                          m.seqno > 0 && (m.nonce.Some? ==> IsNonceText(m.nonce.value))
  {
    if raws != [] {
      ParsedMessages(raws[1..]);
    }
  }

  // Sorted and duplicate-free is strictly increasing.
  lemma {:induction false} SortedWithoutDuplicates(s: seq<int>)
    requires IsSorted(s)
    ensures HasNoDuplicates(s) <==> Increasing(s)
    decreases |s|
  {
    if s != [] {
      var front, last := s[..|s| - 1], s[|s| - 1];
      assert s == front + [last];
      SortedWithoutDuplicates(front);
      DuplicatesStep(front, last);
      SortedMaximum(s);
      assert last in front ==> !Increasing(s);
      assert Increasing(front) && last !in front ==> Increasing(s) by {
        forall j, k | 0 <= j < k < |s| && Increasing(front) && last !in front
          ensures s[j] < s[k]
        {
          if k == |s| - 1 {
            assert front[j] != last;
          } else {
            assert front[j] < front[k];
          }
        }
      }
      assert Increasing(s) ==> Increasing(front) by {
        assert forall k :: 0 <= k < |front| ==> front[k] == s[k];
      }
    }
  }

  lemma DuplicatesStep(front: seq<int>, last: int)
    ensures HasNoDuplicates(front + [last]) <==> HasNoDuplicates(front) && last !in front
  {
    var all, most := set x | x in front + [last], set x | x in front;
    assert all == most + {last};
    SetSizeAtMostLength(front);
    if last in front {
      assert all == most;
    } else {
      assert |all| == |most| + 1;
    }
  }

  lemma {:induction false} SetSizeAtMostLength(s: seq<int>)
    ensures |set x | x in s| <= |s|
    decreases |s|
  {
    if s != [] {
      var front, last := s[..|s| - 1], s[|s| - 1];
      assert s == front + [last];
      SetSizeAtMostLength(front);
      assert (set x | x in s) == (set x | x in front) + {last};
    }
  }

  lemma {:induction false} SortedMaximum(s: seq<int>)
    requires IsSorted(s) && s != []
    ensures forall k :: 0 <= k < |s| ==> s[k] <= s[|s| - 1]
    decreases |s|
  {
    if |s| > 1 {
      SortedMaximum(s[..|s| - 1]);
    }
  }

  lemma SnapshotIsWellFormed(raw: RawSnapshot, room: string)
    requires ParseSnapshot(raw, room).Ok?
    ensures WellFormed(ParseSnapshot(raw, room).value)
    ensures ParseSnapshot(raw, room).value.room == room
  {
    var snapshot := ParseSnapshot(raw, room).value;
    var sequences := Sequences(snapshot.messages);
    ParsedMessages(raw.messages.value);
    SortedWithoutDuplicates(sequences);
    forall m | m in snapshot.messages
      ensures snapshot.firstSeq <= m.seqno <= snapshot.lastSeq
    {
      var k :| 0 <= k < |snapshot.messages| && snapshot.messages[k] == m;
      assert sequences[0] <= sequences[k] <= sequences[|sequences| - 1];
    }
  }
}
