// Explicit recovery of one ambiguous delivery: what a room read proves, and
// how the journal and the state file are brought to rest.
module Recovery {
  import opened Wrappers
  import opened Numerals
  import opened Messages
  import opened Protocol
  import opened State
  import opened Capabilities
  import opened Delivery

  // ---- The room on the server ----

  type Room = seq<RoomMessage>

  predicate Contiguous(room: Room) {
    forall k :: 0 <= k < |room| ==> room[k].seqno == k + 1
  }

  // A read returns the newest `limit` records after `since`; an empty read
  // echoes `since`. Records do not expire here.
  function ReadRoom(name: string, room: Room, since: nat, limit: nat): RoomSnapshot
    requires since <= |room|
  {
    var start := Max(since, |room| - limit);
    if start == |room| then RoomSnapshot(name, 0, since, [], 0)
    else RoomSnapshot(name, start + 1, |room|, room[start..], 0)
  }

  // ---- What a read proves ----

  const READ_LIMIT: nat := 200

  function Range(from: int, to: int): (range: seq<int>)
    ensures |range| == Max(to - from, 0)
    ensures forall k :: 0 <= k < |range| ==> range[k] == from + k
  {
    seq(Max(to - from, 0), k => from + k)
  }

  predicate IsCompleteHistory(snapshot: RoomSnapshot, inputSequence: int) {
    if snapshot.lastSeq == inputSequence && snapshot.messages == [] then true
    else if snapshot.messages == [] || snapshot.lastSeq < inputSequence then false
    else
      && snapshot.firstSeq == inputSequence + 1
      && Sequences(snapshot.messages) == Range(inputSequence + 1, snapshot.lastSeq + 1)
  }

  function Copies(record: DeliveryRecord, messages: seq<RoomMessage>): (copies: seq<RoomMessage>)
    ensures forall m :: m in copies <==> m in messages && record.Matches(m)
  {
    if messages == [] then []
    else (if record.Matches(messages[0]) then [messages[0]] else []) + Copies(record, messages[1..])
  }

  datatype Inspection = Incomplete | Duplicates | Found(reply: int) | NotFound

  function Inspect(record: DeliveryRecord, snapshot: RoomSnapshot): Inspection {
    var copies := Copies(record, snapshot.messages);
    if !IsCompleteHistory(snapshot, record.inputSequence) then Incomplete
    else if |copies| > 1 then Duplicates
    else if |copies| == 1 then Found(copies[0].seqno)
    else NotFound
  }

  // For any well-formed snapshot, complete means that it starts right after
  // the input and holds as many records as there are sequence numbers.
  lemma CompleteIffFull(snapshot: RoomSnapshot, inputSequence: int)
    requires WellFormed(snapshot)
    ensures IsCompleteHistory(snapshot, inputSequence)
            <==> |snapshot.messages| == snapshot.lastSeq - inputSequence
                 && (snapshot.messages != [] ==> snapshot.firstSeq == inputSequence + 1)
  {
    var sequences := Sequences(snapshot.messages);
    var n := |sequences|;
    if n == snapshot.lastSeq - inputSequence && n > 0 && snapshot.firstSeq == inputSequence + 1 {
      assert snapshot.messages[0] in snapshot.messages && snapshot.messages[n - 1] in snapshot.messages;
      forall k | 0 <= k < n
        ensures sequences[k] == inputSequence + 1 + k
      {
        IncreasingSpread(sequences, 0, k);
        IncreasingSpread(sequences, k, n - 1);
      }
      assert sequences == Range(inputSequence + 1, snapshot.lastSeq + 1);
    }
  }

  lemma {:induction false} IncreasingSpread(s: seq<int>, j: nat, k: nat)
    requires Increasing(s) && j <= k < |s|
    ensures s[k] - s[j] >= k - j
    decreases k
  {
    if j < k {
      IncreasingSpread(s, j, k - 1);
    }
  }

  // Against a contiguous room the test is exact: it holds just when the read
  // returned the whole suffix after the input.
  lemma CompleteIffWholeSuffix(name: string, room: Room, inputSequence: nat)
    requires Contiguous(room) && inputSequence <= |room|
    ensures var snapshot := ReadRoom(name, room, inputSequence, READ_LIMIT);
            (IsCompleteHistory(snapshot, inputSequence) <==> snapshot.messages == room[inputSequence..])
            && (IsCompleteHistory(snapshot, inputSequence) <==> |room| - inputSequence <= READ_LIMIT)
  {
    var snapshot := ReadRoom(name, room, inputSequence, READ_LIMIT);
    var start := Max(inputSequence, |room| - READ_LIMIT);
    if start == inputSequence && snapshot.messages != [] {
      assert Sequences(snapshot.messages) == Range(inputSequence + 1, |room| + 1);
    }
  }

  lemma {:induction false} CopiesOfConcat(record: DeliveryRecord, a: seq<RoomMessage>, b: seq<RoomMessage>)
    ensures Copies(record, a + b) == Copies(record, a) + Copies(record, b)
  {
    if a == [] {
      assert a + b == b;
    } else {
      CopiesOfConcat(record, a[1..], b);
      var head := if record.Matches(a[0]) then [a[0]] else [];
      assert (a + b)[0] == a[0] && (a + b)[1..] == a[1..] + b;
      assert Copies(record, a + b) == head + Copies(record, a[1..] + b);
    }
  }

  // A complete read counts the true number of copies in the room, so a retry
  // is offered only when there is none.
  lemma InspectionIsExact(name: string, room: Room, record: DeliveryRecord)
    requires Contiguous(room) && 0 <= record.inputSequence <= |room|
    requires forall k :: 0 <= k < record.inputSequence ==> !record.Matches(room[k])
    ensures var snapshot := ReadRoom(name, room, record.inputSequence, READ_LIMIT);
            match Inspect(record, snapshot)
            case Incomplete => |room| - record.inputSequence > READ_LIMIT
            case Duplicates => |Copies(record, room)| > 1
            case Found(reply) => |Copies(record, room)| == 1
                                 && record.inputSequence < reply <= |room| && record.Matches(room[reply - 1])
            case NotFound => Copies(record, room) == []
                             && forall k :: 0 <= k < |room| ==> !record.Matches(room[k])
  {
    var snapshot := ReadRoom(name, room, record.inputSequence, READ_LIMIT);
    CompleteIffWholeSuffix(name, room, record.inputSequence);
    CopiesAfter(room, record, record.inputSequence);
    if Inspect(record, snapshot).Found? {
      CopyIsPlaced(room, record, record.inputSequence, Copies(record, snapshot.messages)[0]);
    }
  }

  lemma CopiesAfter(room: Room, record: DeliveryRecord, from: nat)
    requires from <= |room| && forall k :: 0 <= k < from ==> !record.Matches(room[k])
    ensures Copies(record, room) == Copies(record, room[from..])
    ensures Copies(record, room) == [] ==> forall k :: 0 <= k < |room| ==> !record.Matches(room[k])
  {
    var before, after := room[..from], room[from..];
    assert room == before + after;
    CopiesOfConcat(record, before, after);
    NoCopies(record, before);
    assert forall k :: 0 <= k < |room| && record.Matches(room[k]) ==> room[k] in Copies(record, room);
  }

  lemma CopyIsPlaced(room: Room, record: DeliveryRecord, from: nat, copy: RoomMessage)
    requires Contiguous(room) && from <= |room| && copy in Copies(record, room[from..])
    ensures from < copy.seqno <= |room| && record.Matches(room[copy.seqno - 1])
  {
    var k :| 0 <= k < |room[from..]| && room[from..][k] == copy;
    assert room[from + k] == copy;
  }

  lemma {:induction false} NoCopies(record: DeliveryRecord, messages: seq<RoomMessage>)
    requires forall m :: m in messages ==> !record.Matches(m)
    ensures Copies(record, messages) == []
  {
    if messages != [] {
      NoCopies(record, messages[1..]);
    }
  }

  lemma {:induction false} TwoCopies(record: DeliveryRecord, messages: seq<RoomMessage>)
    requires |Copies(record, messages)| > 1
    ensures exists j, k :: 0 <= j < k < |messages| && record.Matches(messages[j]) && record.Matches(messages[k])
  {
    var rest := messages[1..];
    assert forall k :: 0 <= k < |rest| ==> rest[k] == messages[k + 1];
    if record.Matches(messages[0]) {
      var copy := Copies(record, rest)[0];
      assert copy in Copies(record, rest);
      var k :| 0 <= k < |rest| && rest[k] == copy;
      assert record.Matches(messages[k + 1]);
    } else {
      TwoCopies(record, rest);
      var j, k :| 0 <= j < k < |rest| && record.Matches(rest[j]) && record.Matches(rest[k]);
      assert record.Matches(messages[j + 1]) && record.Matches(messages[k + 1]);
    }
  }

  // ---- Bringing journal and state to rest ----

  // The two files recovery writes.
  datatype Evidence = Evidence(file: StateFile, journal: Option<DeliveryRecord>)

  function RecoveredFile(file: StateFile, room: string, record: DeliveryRecord): StateFile
    requires record.inputSequence >= 0
  {
    file.(nonces := file.nonces[room := Max(file.NonceMark(room), record.nonce)],
          cursors := file.cursors[room := Max(file.Cursor(room), record.inputSequence)])
  }

  // The files after the first `writes` durable writes of the finalization.
  function Finalized(e: Evidence, room: string, record: DeliveryRecord, reply: int, writes: nat): Evidence
    requires record.inputSequence >= 0 && record.Acknowledge(reply).Ok?
  {
    var acknowledged := record.Acknowledge(reply).value;
    if writes == 0 then e
    else if writes == 1 then e.(journal := Some(acknowledged))
    else if writes == 2 then Evidence(RecoveredFile(e.file, room, record), Some(acknowledged))
    else Evidence(RecoveredFile(e.file, room, record), None)
  }

  // One invocation of recover-delivery --apply: the room it reads, the answer
  // to a confirmed retry if one was made and answered, and after how many
  // durable writes it stops; three is a complete one.
  datatype Try = Try(room: Room, answer: Option<int>, writes: nat)

  // The reply an invocation settles on, if any.
  function Settled(record: DeliveryRecord, name: string, t: Try): Option<int> {
    if record.status.Acknowledged? then record.replySequence
    else if !(0 <= record.inputSequence <= |t.room|) then None
    else
      match Inspect(record, ReadRoom(name, t.room, record.inputSequence, READ_LIMIT))
      case Found(reply) => Some(reply)
      case NotFound => t.answer
      case _ => None
  }

  function Recover(e: Evidence, name: string, t: Try): Evidence {
    if e.journal.None? || e.journal.value.inputSequence < 0 then e
    else
      var record := e.journal.value;
      match Settled(record, name, t)
      case None => e
      case Some(reply) =>
        if record.Acknowledge(reply).Err? then e else Finalized(e, name, record, reply, t.writes)
  }

  function RecoverTries(e: Evidence, name: string, tries: seq<Try>): Evidence
    decreases tries
  {
    if tries == [] then e else RecoverTries(Recover(e, name, tries[0]), name, tries[1..])
  }

  predicate Pending(e: Evidence) {
    e.journal.Some? && e.journal.value.status.Pending?
  }

  // While the journal is pending, each invocation settles on this reply or on
  // nothing. Nothing is asked of rooms read later.
  predicate TriesAgree(e: Evidence, name: string, tries: seq<Try>, reply: Option<int>)
    decreases tries
  {
    tries != [] ==>
      && (Pending(e) ==> Settled(e.journal.value, name, tries[0]) in {None, reply})
      && TriesAgree(Recover(e, name, tries[0]), name, tries[1..], reply)
  }

  // The files once a delivery with this reply is settled.
  function AtRest(e: Evidence, name: string, reply: Option<int>): Evidence {
    if e.journal.None? || e.journal.value.inputSequence < 0 || reply.None?
       || e.journal.value.Acknowledge(reply.value).Err? then e
    else Evidence(RecoveredFile(e.file, name, e.journal.value), None)
  }

  predicate Known(e: Evidence, reply: Option<int>) {
    e.journal.Some? ==>
      WellFormedRecord(e.journal.value)
      && (e.journal.value.status.Acknowledged? ==> e.journal.value.replySequence == reply)
  }

  // The journal is gone, unchanged, or acknowledged with this reply.
  predicate SettledOn(before: Option<DeliveryRecord>, after: Option<DeliveryRecord>, reply: Option<int>) {
    || after.None? || after == before
    || (before.Some? && reply.Some? && before.value.Acknowledge(reply.value) == Ok(after.value))
  }

  // Recovery interrupted any number of times, at any point, with whatever
  // posted to the room in between, and then run to the end, leaves the files
  // the uninterrupted first run would have left; and the reply it settled on
  // never changes. From a delivery that can be settled that is an empty
  // journal, the input behind the cursor and the nonce behind the mark.
  lemma RecoveryConverges(e: Evidence, name: string, first: Try, tries: seq<Try>, last: Try)
    requires e.journal.Some? ==> WellFormedRecord(e.journal.value)
    requires first.writes == 3 && last.writes == 3
    requires var reply := if e.journal.Some? then Settled(e.journal.value, name, first) else None;
             && TriesAgree(e, name, tries, reply)
             && var rest := RecoverTries(e, name, tries);
                Pending(rest) ==> Settled(rest.journal.value, name, last) == reply
    ensures Recover(RecoverTries(e, name, tries), name, last) == Recover(e, name, first)
    ensures e.journal.Some? ==>
              SettledOn(e.journal, RecoverTries(e, name, tries).journal, Settled(e.journal.value, name, first))
    ensures e.journal.Some? && Settled(e.journal.value, name, first).Some?
            && e.journal.value.Acknowledge(Settled(e.journal.value, name, first).value).Ok? ==>
              Recover(e, name, first) == Evidence(RecoveredFile(e.file, name, e.journal.value), None)
  {
    var reply := if e.journal.Some? then Settled(e.journal.value, name, first) else None;
    TriesKeepRest(e, name, tries, reply);
    CompleteTry(e, name, first, reply);
    CompleteTry(RecoverTries(e, name, tries), name, last, reply);
  }

  lemma CompleteTry(e: Evidence, name: string, t: Try, reply: Option<int>)
    requires Known(e, reply) && t.writes == 3
    requires Pending(e) ==> Settled(e.journal.value, name, t) == reply
    ensures Recover(e, name, t) == AtRest(e, name, reply)
  {
  }

  lemma {:induction false} TriesKeepRest(e: Evidence, name: string, tries: seq<Try>, reply: Option<int>)
    requires Known(e, reply) && TriesAgree(e, name, tries, reply)
    ensures var rest := RecoverTries(e, name, tries);
            && Known(rest, reply) && SettledOn(e.journal, rest.journal, reply)
            && AtRest(rest, name, reply) == AtRest(e, name, reply)
    decreases tries
  {
    if tries != [] {
      OneTry(e, name, tries[0], reply);
      TriesKeepRest(Recover(e, name, tries[0]), name, tries[1..], reply);
    }
  }

  lemma OneTry(e: Evidence, name: string, t: Try, reply: Option<int>)
    requires Known(e, reply)
    requires Pending(e) ==> Settled(e.journal.value, name, t) in {None, reply}
    ensures var next := Recover(e, name, t);
            && Known(next, reply) && SettledOn(e.journal, next.journal, reply)
            && AtRest(next, name, reply) == AtRest(e, name, reply)
  {
    if e.journal.Some? && Settled(e.journal.value, name, t).Some? {
      var record := e.journal.value;
      if record.Acknowledge(reply.value).Ok? {
        var acknowledged := record.Acknowledge(reply.value).value;
        assert acknowledged.status.Acknowledged? && acknowledged.Acknowledge(reply.value) == Ok(acknowledged);
        RecoveredTwice(e.file, name, record);
      }
    }
  }

  lemma RecoveredTwice(file: StateFile, room: string, record: DeliveryRecord)
    requires record.inputSequence >= 0
    ensures RecoveredFile(RecoveredFile(file, room, record), room, record) == RecoveredFile(file, room, record)
  {
    var once := RecoveredFile(file, room, record);
    assert once.nonces[room := once.nonces[room]] == once.nonces;
    assert once.cursors[room := once.cursors[room]] == once.cursors;
  }

  // Once the journal is acknowledged no room is consulted again: invocations
  // with any other rooms and answers leave the same files at every point.
  lemma {:induction false} AcknowledgedIgnoresRoom(e: Evidence, name: string, tries: seq<Try>, others: seq<Try>)
    requires e.journal.Some? ==> WellFormedRecord(e.journal.value) && e.journal.value.status.Acknowledged?
    requires |tries| == |others| && forall k :: 0 <= k < |tries| ==> tries[k].writes == others[k].writes
    ensures RecoverTries(e, name, tries) == RecoverTries(e, name, others)
    decreases tries
  {
    if tries != [] {
      AcknowledgedIgnoresRoom(Recover(e, name, tries[0]), name, tries[1..], others[1..]);
    }
  }

  // ---- Why the invocations agree ----

  // The room an invocation read, and what it was answered, belong to the
  // history of this room.
  predicate ReadFrom(record: DeliveryRecord, t: Try, history: Room) {
    && t.room <= history
    && (t.answer.Some? ==> 1 <= t.answer.value <= |history| && record.Matches(history[t.answer.value - 1]))
  }

  // The room holds at most one copy of the envelope, after its input.
  predicate OneCopy(record: DeliveryRecord, history: Room) {
    && (forall k :: 0 <= k < |history| && record.Matches(history[k]) ==> record.inputSequence <= k)
    && (forall j, k :: 0 <= j < k < |history| ==> !record.Matches(history[j]) || !record.Matches(history[k]))
  }

  lemma SettledIsCopy(record: DeliveryRecord, name: string, t: Try, history: Room)
    requires record.status.Pending? && Contiguous(history) && OneCopy(record, history) && ReadFrom(record, t, history)
    ensures var reply := Settled(record, name, t);
            reply.Some? ==> 1 <= reply.value <= |history| && record.Matches(history[reply.value - 1])
  {
    if 0 <= record.inputSequence <= |t.room| {
      PrefixHasCopies(record, t.room, history);
      InspectionIsExact(name, t.room, record);
    }
  }

  lemma PrefixHasCopies(record: DeliveryRecord, room: Room, history: Room)
    requires room <= history && Contiguous(history) && OneCopy(record, history)
    ensures Contiguous(room) && forall k :: 0 <= k < |room| ==> room[k] == history[k]
    ensures forall k :: 0 <= k < |room| && k < record.inputSequence ==> !record.Matches(room[k])
  {
    assert forall k :: 0 <= k < |room| ==> room[k] == history[k];
  }

  lemma TwoReadsAgree(record: DeliveryRecord, name: string, t: Try, t': Try, history: Room)
    requires record.status.Pending? && Contiguous(history) && OneCopy(record, history)
    requires ReadFrom(record, t, history) && ReadFrom(record, t', history)
    ensures Settled(record, name, t).Some? && Settled(record, name, t').Some? ==>
              Settled(record, name, t) == Settled(record, name, t')
  {
    SettledIsCopy(record, name, t, history);
    SettledIsCopy(record, name, t', history);
  }

  // A room only grows. So all invocations on a delivery agree, whenever they
  // read it and whatever was posted in between.
  lemma {:induction false} GrowingRoomsAgree(e: Evidence, name: string, first: Try, tries: seq<Try>, history: Room)
    requires Pending(e) && Contiguous(history) && OneCopy(e.journal.value, history)
    requires ReadFrom(e.journal.value, first, history)
    requires forall k :: 0 <= k < |tries| ==> ReadFrom(e.journal.value, tries[k], history)
    requires Settled(e.journal.value, name, first).Some?
    ensures TriesAgree(e, name, tries, Settled(e.journal.value, name, first))
    decreases tries
  {
    if tries != [] {
      var next, reply := Recover(e, name, tries[0]), Settled(e.journal.value, name, first);
      TwoReadsAgree(e.journal.value, name, first, tries[0], history);
      PendingIsUntouched(e, name, tries[0]);
      if Pending(next) {
        GrowingRoomsAgree(e, name, first, tries[1..], history);
      } else {
        SettledTriesAgree(next, name, tries[1..], reply);
      }
    }
  }

  lemma PendingIsUntouched(e: Evidence, name: string, t: Try)
    requires Pending(e)
    ensures Pending(Recover(e, name, t)) ==> Recover(e, name, t) == e
  {
  }

  lemma {:induction false} SettledTriesAgree(e: Evidence, name: string, tries: seq<Try>, reply: Option<int>)
    requires !Pending(e)
    ensures TriesAgree(e, name, tries, reply)
    decreases tries
  {
    if tries != [] {
      SettledTriesAgree(Recover(e, name, tries[0]), name, tries[1..], reply);
    }
  }

  // ---- The finalization as the code runs it ----

  method FinalizeRecovery(
      room: string, record: DeliveryRecord, reply: int, state: AgentState, path: StatePath, journal: DeliveryJournal)
    returns (r: Result<(), DeliveryError>, ghost writes: nat)
    requires WellFormedRecord(record) && journal.stored == Some(ToPayload(record))
    requires path.saved == state.Value() && record.Acknowledge(reply).Ok?
    modifies state, path, journal
    ensures writes <= 3 && (r.Ok? ==> writes == 3)
    ensures var after := Finalized(Evidence(old(path.saved), Some(record)), room, record, reply, writes);
            path.saved == after.file
            && journal.stored == if after.journal.None? then None else Some(ToPayload(after.journal.value))
  {
    writes := 0;
    RecordRoundTrip(record);
    var acknowledged := journal.Acknowledge(reply);
    if acknowledged.Err? {
      writes := if journal.stored == Some(ToPayload(record)) then 0 else 1;
      return Err(acknowledged.error), writes;
    }
    writes := 1;
    var persisted := PersistRecoveredState(room, record, state, path);
    if persisted.Err? {
      writes := if path.saved == RecoveredFile(old(path.saved), room, record) then 2 else 1;
      return Err(JournalWriteFailed), writes;
    }
    writes := 2;
    r := journal.Clear();
    writes := if journal.stored.None? then 3 else 2;
  }

  method PersistRecoveredState(room: string, record: DeliveryRecord, state: AgentState, path: StatePath)
    returns (r: Result<(), StateError>)
    requires record.inputSequence >= 0
    modifies state, path
    ensures path.saved == RecoveredFile(old(state.Value()), room, record) || (r.Err? && path.saved == old(path.saved))
    ensures r.Ok? ==> state.Value() == path.saved
  {
    state.ObserveNonce(room, record.nonce);
    r := state.AdvanceCursor(room, Max(state.CursorFor(room), record.inputSequence));
    if r.Ok? {
      r := path.Save(state);
    }
  }
}
