// The recovery command as the code runs it, on a deployment: what it reports,
// what it changes, and that it only ever takes steps of the protocol machine.
module RecoveryCommand {
  import opened Wrappers
  import opened DidKey
  import opened Messages
  import opened Protocol
  import opened State
  import opened Capabilities
  import opened Delivery
  import opened Recovery
  import opened DeliveryProtocol
  import opened Safety
  import opened Deployment

  datatype Report =
    | NoPendingDelivery
    | DeliveryAcknowledged(reply: int)
    | HistoryIncomplete(matches: nat)
    | DuplicateRecords(replies: seq<int>)
    | DeliveryFound(reply: int)
    | DeliveryNotFound
    | DeliveryRecovered(reply: int)
    | DeliveryRetried(reply: int)

  predicate Finished(report: Report) {
    report.DeliveryRecovered? || report.DeliveryRetried?
  }

  // ---- The machine behind a finalization ----

  // At rest again with the files of a finalization that made `writes` writes.
  predicate Rests(s: Sys, t: Sys, room: string, record: DeliveryRecord, reply: int, writes: nat)
    requires record.inputSequence >= 0 && record.Acknowledge(reply).Ok?
  {
    var after := Finalized(Evidence(s.disk.file, Some(record)), room, record, reply, writes);
    t == s.(life := Down, disk := s.disk.(file := after.file, journal := after.journal))
  }

  // From a settled reply, any number of the three writes is a run.
  lemma FinalizationRuns(s: Sys, writes: nat) returns (t: Sys)
    requires s.life.Recovery? && s.life.step.Settling?
    requires s.life.mem == s.disk.file && s.disk.journal == Some(s.life.record)
    requires s.life.record.inputSequence >= 0 && s.life.record.Acknowledge(s.life.step.reply).Ok? && writes <= 3
    ensures Reaches(s, t) && Rests(s, t, s.life.room, s.life.record, s.life.step.reply, writes)
  {
    ReachesItself(s);
    if writes == 0 {
      AfterCrash(s, s);
      return DoCrash(s);
    }
    Advance(s, s, RecoverAcknowledge);
    var acknowledged := DoRecoverAcknowledge(s);
    if writes == 1 {
      AfterCrash(s, acknowledged);
      return DoCrash(acknowledged);
    }
    Advance(s, acknowledged, RecoverPersist);
    var persisted := DoRecoverPersist(acknowledged);
    if writes == 2 {
      AfterCrash(s, persisted);
      return DoCrash(persisted);
    }
    Advance(s, persisted, RecoverClear);
    t := DoRecoverClear(persisted);
  }

  // ---- What the invariant gives the command ----

  // The journal's envelope is the last one issued, for this very room.
  lemma JournalIsLast(s: Sys, room: string)
    requires Inv(s) && CanStartRecovery(s, room)
    ensures var record := s.disk.journal.value;
            && WellFormedRecord(record) && s.issued != []
            && s.issued[|s.issued| - 1] == Issued(room, AsPending(record))
            && 0 < record.inputSequence <= |RoomOf(s.rooms, room)|
            && Inv(DoStartRecovery(s, room))
  {
    StartRecoveryKeeps(s, room);
    assert EnvelopeOk(s.config.own, s.rooms, s.issued[|s.issued| - 1]);
  }

  lemma SettlingReplyIsLater(s: Sys)
    requires LifeOk(s) && s.life.Recovery? && s.life.step.Settling?
    ensures s.life.record.inputSequence >= 0 && s.life.record.Acknowledge(s.life.step.reply).Ok?
    ensures s.disk.journal == Some(s.life.record)
  {
  }

  // ---- The command ----

  // At rest, with memory as saved.
  ghost predicate AtRest(world: World, state: AgentState)
    reads world, world.path, world.journal, world.audit, world.server, state
  {
    world.Linked() && world.s.life.Down? && Reachable(world.s) && state.Value() == world.path.saved
  }

  // The command holds `record`, and has settled on `reply`.
  ghost predicate HasSettled(world: World, state: AgentState, room: string, record: DeliveryRecord, reply: int)
    reads world, world.path, world.journal, world.audit, world.server, state
  {
    && world.Linked() && state.Value() == world.path.saved
    && world.s.life == DeliveryProtocol.Recovery(room, state.Value(), record, Settling(reply))
    && world.s.disk.journal == Some(record) && record.inputSequence >= 0 && record.Acknowledge(reply).Ok?
  }

  lemma StaysWellFormed(record: DeliveryRecord, reply: int)
    requires WellFormedRecord(record) && record.Acknowledge(reply).Ok?
    ensures WellFormedRecord(record.Acknowledge(reply).value)
  {
  }

  method Finalize(world: World, state: AgentState, room: string, record: DeliveryRecord, reply: int)
    returns (r: Result<(), DeliveryError>)
    requires HasSettled(world, state, room, record, reply)
    modifies world, world.path, world.journal, state
    ensures world.Linked() && Reaches(old(world.s), world.s) && world.s.life.Down?
    ensures record.inputSequence >= 0
    ensures r.Ok? ==> world.s.disk.journal.None? && world.s.disk.file == RecoveredFile(old(world.path.saved), room, record)
  {
    ghost var before := world.s;
    ghost var writes: nat;
    r, writes := FinalizeRecovery(room, record, reply, state, world.path, world.journal);
    StaysWellFormed(record, reply);
    ghost var after := FinalizationRuns(before, writes);
    world.s := after;
  }

  // The answer to a retry is settled on.
  lemma RetrySettles(s: Sys, t: Sys, reply: int)
    requires Reachable(s) && Reaches(s, t) && CanRepostAnswer(t, reply)
    ensures Reaches(s, DoRepostAnswer(t, reply))
    ensures t.life.record.inputSequence >= 0 && t.life.record.Acknowledge(reply).Ok?
  {
    Advance(s, t, RepostAnswer(reply));
    StaysReachable(s, t);
    ReachableKeeps(t);
    RepostAnswerKeeps(t, reply);
    SettlingReplyIsLater(DoRepostAnswer(t, reply));
  }

  lemma ThenStartRecovery(s: Sys, room: string)
    requires Reachable(s) && CanStartRecovery(s, room)
    ensures Reaches(s, DoStartRecovery(s, room)) && Reachable(DoStartRecovery(s, room))
  {
    ReachesItself(s);
    Advance(s, s, StartRecovery(room));
    StaysReachable(s, DoStartRecovery(s, room));
  }

  // An acknowledgement in the journal is settled on without a look at the room.
  lemma AcknowledgementRuns(s: Sys, room: string) returns (t: Sys)
    requires Reachable(s) && CanStartRecovery(s, room) && s.disk.journal.value.status.Acknowledged?
    ensures s.disk.journal.value.replySequence.Some?
    ensures var record := s.disk.journal.value;
            && Reaches(s, t) && record.inputSequence >= 0 && record.Acknowledge(record.replySequence.value).Ok?
            && t == s.(life := DeliveryProtocol.Recovery(
                         room, s.disk.file, record, Settling(record.replySequence.value)))
  {
    ThenStartRecovery(s, room);
    var started := DoStartRecovery(s, room);
    ReachableKeeps(started);
    Advance(s, started, UseAcknowledgement);
    UseAcknowledgementKeeps(started);
    t := DoUseAcknowledgement(started);
    SettlingReplyIsLater(t);
  }

  method Resend(world: World, room: string, record: DeliveryRecord)
    requires world.Linked() && CanRepost(world.s) && world.s.life.room == room && world.s.life.record == record
    modifies world, world.server
    ensures world.Linked() && Reaches(old(world.s), world.s)
    ensures world.s == DoRepost(old(world.s)).(rooms := world.s.rooms, wire := world.s.wire)
  {
    ghost var before := world.s;
    ReachesItself(before);
    Advance(before, before, Repost);
    world.server.Send(Issued(room, record));
    world.s := DoRepost(before);
    ghost var posted := world.s;
    world.Elapse();
    ReachesOn(before, posted, world.s);
  }

  // Resend the very envelope of the journal, once.
  method RetryExactEnvelope(world: World, state: AgentState, room: string, record: DeliveryRecord)
    returns (r: Result<int, DeliveryError>)
    requires world.Linked() && Reachable(world.s) && state.Value() == world.path.saved
    requires world.s.life == DeliveryProtocol.Recovery(room, state.Value(), record, RetryReady)
    requires world.s.disk.journal == Some(record)
    modifies world, world.server
    ensures world.Linked() && Reaches(old(world.s), world.s)
    ensures r.Ok? ==> HasSettled(world, state, room, record, r.value)
    ensures world.s.disk == old(world.s.disk)
    ensures r.Err? ==> world.s.life.Down?
  {
    ghost var before := world.s;
    Resend(world, room, record);
    var answered: bool, reply: int := *, *;
    var landed := RoomOf(world.server.rooms, room);
    if !answered || !(1 <= reply <= |landed|) || !record.Matches(landed[reply - 1]) {
      AfterCrash(before, world.s);
      world.s := DoCrash(world.s);
      return Err(RetryNotAcknowledged);
    }
    RetrySettles(before, world.s, reply);
    world.s := DoRepostAnswer(world.s, reply);
    r := Ok(reply);
  }

  // The command is at rest and the journal holds this record of this room.
  ghost predicate Holds(world: World, state: AgentState, room: string, record: DeliveryRecord)
    reads world, world.path, world.journal, world.audit, world.server, state
  {
    AtRest(world, state) && CanStartRecovery(world.s, room) && world.s.disk.journal == Some(record)
  }

  method RecoverAcknowledged(world: World, state: AgentState, room: string, record: DeliveryRecord, apply: bool)
    returns (r: Result<Report, DeliveryError>)
    requires Holds(world, state, room, record) && record.status.Acknowledged?
    modifies world, world.path, world.journal, state
    ensures world.Linked() && Reaches(old(world.s), world.s) && world.s.life.Down?
    ensures !apply ==> world.s == old(world.s) && r == Ok(DeliveryAcknowledged(record.replySequence.value))
    ensures record.inputSequence >= 0 && record.replySequence.Some?
    ensures r.Ok? && apply ==>
              && r.value == DeliveryRecovered(record.replySequence.value)
              && world.s.disk.journal.None? && world.s.disk.file == RecoveredFile(old(world.path.saved), room, record)
  {
    ghost var before := world.s;
    ReachesItself(before);
    if !apply {
      return Ok(DeliveryAcknowledged(record.replySequence.value));
    }
    ghost var settled := AcknowledgementRuns(before, room);
    world.s := settled;
    var finalized := Finalize(world, state, room, record, record.replySequence.value);
    ReachesOn(before, settled, world.s);
    r := if finalized.Ok? then Ok(DeliveryRecovered(record.replySequence.value)) else Err(finalized.error);
  }

  // What one read of the room shows about a pending envelope.
  lemma PendingInspection(s: Sys, room: string)
    requires Reachable(s) && CanStartRecovery(s, room) && s.disk.journal.value.status.Pending?
    ensures 0 < s.disk.journal.value.inputSequence <= |RoomOf(s.rooms, room)|
    ensures var record, history := s.disk.journal.value, RoomOf(s.rooms, room);
            match Inspect(record, Recovery.ReadRoom(room, history, record.inputSequence, READ_LIMIT))
            case Incomplete => |history| - record.inputSequence > READ_LIMIT
            case Duplicates => false
            case Found(reply) => ReplyPosted(history, record, reply)
            case NotFound => NoCopy(s.rooms, Issued(room, record))
  {
    var record, history := s.disk.journal.value, RoomOf(s.rooms, room);
    PendingCopies(s, room);
    InspectionIsExact(room, history, record);
    if |Copies(record, history)| > 1 {
      TwoCopies(record, history);
    }
  }

  // The copies of a pending envelope: after its input, and at most one.
  lemma PendingCopies(s: Sys, room: string)
    requires Reachable(s) && CanStartRecovery(s, room) && s.disk.journal.value.status.Pending?
    ensures var record, history := s.disk.journal.value, RoomOf(s.rooms, room);
            0 < record.inputSequence <= |history| && Contiguous(history) && OneCopy(record, history)
  {
    ReachableKeeps(s);
    JournalIsLast(s, room);
    LastEnvelopeRecords(DoStartRecovery(s, room));
  }

  lemma ThenInspectRoom(s: Sys, t: Sys)
    requires Reaches(s, t) && Reachable(t) && CanInspectRoom(t)
    ensures Reaches(s, DoInspectRoom(t))
    ensures var t' := DoInspectRoom(t);
            t'.life.Recovery? && (t'.life.step.Settling? ==> t'.life.record.Acknowledge(t'.life.step.reply).Ok?)
  {
    Advance(s, t, InspectRoom);
    ReachableKeeps(t);
    InspectRoomKeeps(t);
    if DoInspectRoom(t).life.step.Settling? {
      SettlingReplyIsLater(DoInspectRoom(t));
    }
  }

  // The machine inspects the room and settles on, or is ready for, a reply.
  lemma InspectionRuns(s: Sys, room: string) returns (t: Sys)
    requires Reachable(s) && CanStartRecovery(s, room) && s.disk.journal.value.status.Pending?
    requires s.config.server.DeliversPromptly? ==> s.wire == multiset{}
    requires 0 <= s.disk.journal.value.inputSequence <= |RoomOf(s.rooms, room)|
    requires var record := s.disk.journal.value;
             var seen := Inspect(record, Recovery.ReadRoom(room, RoomOf(s.rooms, room), record.inputSequence, READ_LIMIT));
             seen.Found? || seen.NotFound?
    ensures Reaches(s, t)
    ensures t.life.Recovery? && (t.life.step.Settling? ==> t.life.record.Acknowledge(t.life.step.reply).Ok?)
    ensures var record := s.disk.journal.value;
            var seen := Inspect(record, Recovery.ReadRoom(room, RoomOf(s.rooms, room), record.inputSequence, READ_LIMIT));
            t == s.(life := DeliveryProtocol.Recovery(
                      room, s.disk.file, record, if seen.Found? then Settling(seen.reply) else RetryReady))
  {
    ThenStartRecovery(s, room);
    var started := DoStartRecovery(s, room);
    ThenInspectRoom(s, started);
    t := DoInspectRoom(started);
  }

  method RecoverPending(
      world: World, state: AgentState, room: string, record: DeliveryRecord, apply: bool, confirmRetry: bool)
    returns (r: Result<Report, DeliveryError>)
    requires Holds(world, state, room, record) && record.status.Pending?
    requires world.server.kind.DeliversPromptly? ==> world.server.wire == multiset{}
    modifies world, world.path, world.journal, world.server, state
    ensures world.Linked() && Reaches(old(world.s), world.s) && world.s.life.Down? && record.inputSequence >= 0
    ensures r.Ok? ==> ReportIsTrue(r.value, old(world.s), room, record)
    ensures r.Ok? && Finished(r.value) ==>
              apply && world.s.disk.journal.None? && world.s.disk.file == RecoveredFile(old(world.path.saved), room, record)
    ensures r.Ok? && !Finished(r.value) ==> world.s == old(world.s)
    ensures !apply ==> r.Ok? && world.s == old(world.s)
    ensures !confirmRetry ==> world.s.rooms == old(world.s.rooms) && world.s.wire == old(world.s.wire)
  {
    ghost var before := world.s;
    ReachesItself(before);
    PendingInspection(before, room);
    // The one read of the room.
    var snapshot := Recovery.ReadRoom(room, RoomOf(world.server.rooms, room), record.inputSequence, READ_LIMIT);
    var matches := Copies(record, snapshot.messages);
    if !IsCompleteHistory(snapshot, record.inputSequence) {
      return Ok(HistoryIncomplete(|matches|));
    }
    if |matches| > 1 {
      return Ok(DuplicateRecords(Sequences(matches)));
    }
    if |matches| == 1 && !apply {
      return Ok(DeliveryFound(matches[0].seqno));
    }
    if |matches| == 0 && !(apply && confirmRetry) {
      return Ok(DeliveryNotFound);
    }
    r := SettlePending(world, state, room, record, if |matches| == 1 then Some(matches[0].seqno) else None);
  }

  // Settle on the one record found, or resend and settle on the answer.
  method SettlePending(world: World, state: AgentState, room: string, record: DeliveryRecord, found: Option<int>)
    returns (r: Result<Report, DeliveryError>)
    requires Holds(world, state, room, record) && record.status.Pending?
    requires world.server.kind.DeliversPromptly? ==> world.server.wire == multiset{}
    requires 0 <= record.inputSequence <= |RoomOf(world.s.rooms, room)|
    requires Inspect(record, Recovery.ReadRoom(room, RoomOf(world.s.rooms, room), record.inputSequence, READ_LIMIT))
             == if found.Some? then Found(found.value) else NotFound
    modifies world, world.path, world.journal, world.server, state
    ensures world.Linked() && Reaches(old(world.s), world.s) && world.s.life.Down?
    ensures r.Ok? ==>
              world.s.disk.journal.None? && world.s.disk.file == RecoveredFile(old(world.path.saved), room, record)
    ensures r.Ok? ==> if found.Some? then r.value == DeliveryRecovered(found.value) else r.value.DeliveryRetried?
    ensures found.Some? ==> world.s.rooms == old(world.s.rooms) && world.s.wire == old(world.s.wire)
  {
    ghost var before := world.s;
    ghost var inspected := InspectionRuns(before, room);
    world.s := inspected;
    var reply: int;
    if found.Some? {
      reply := found.value;
    } else {
      StaysReachable(before, inspected);
      var posted := RetryExactEnvelope(world, state, room, record);
      ReachesOn(before, inspected, world.s);
      if posted.Err? {
        return Err(posted.error);
      }
      reply := posted.value;
    }
    ghost var settled := world.s;
    var finalized := Finalize(world, state, room, record, reply);
    ReachesOn(before, settled, world.s);
    r := if finalized.Err? then Err(finalized.error)
         else if found.Some? then Ok(DeliveryRecovered(reply)) else Ok(DeliveryRetried(reply));
  }

  // What a report says holds of the room that was read.
  ghost predicate ReportIsTrue(report: Report, s: Sys, room: string, record: DeliveryRecord) {
    match report
    case HistoryIncomplete(_) => |RoomOf(s.rooms, room)| - record.inputSequence > READ_LIMIT
    case DeliveryFound(reply) => ReplyPosted(RoomOf(s.rooms, room), record, reply)
    case DeliveryRecovered(reply) => ReplyPosted(RoomOf(s.rooms, room), record, reply)
    case DeliveryNotFound => NoCopy(s.rooms, Issued(room, record))
    case DeliveryRetried(_) => NoCopy(s.rooms, Issued(room, record))
    case _ => false
  }

  // Inspect first; change or resend only behind the flags. From any reachable
  // deployment at rest, the command takes a run of the machine back to rest;
  // without --apply it changes nothing; what it reports is true of the room it
  // read, which never shows two copies; and when it reports success the
  // journal is gone and the state file covers the delivery.
  method RecoverDelivery(room: string, did: string, world: World, state: AgentState, apply: bool, confirmRetry: bool)
    returns (r: Result<Report, DeliveryError>)
    requires AtRest(world, state)
    requires world.server.kind.DeliversPromptly? ==> world.server.wire == multiset{}
    modifies world, world.path, world.journal, world.server, state
    ensures world.Linked() && Reaches(old(world.s), world.s) && world.s.life.Down?
    ensures !apply ==> world.s == old(world.s)
    ensures !confirmRetry ==> world.s.rooms == old(world.s.rooms) && world.s.wire == old(world.s.wire)
    ensures r == Ok(NoPendingDelivery) <==> old(world.s.disk.journal).None? && IsRoom(room) && IsDid(did)
                                            && (confirmRetry ==> apply)
    ensures r.Ok? && !Finished(r.value) ==> world.s == old(world.s)
    ensures r.Ok? && !r.value.NoPendingDelivery? ==>
              && old(world.s.disk.journal).Some?
              && var record := old(world.s.disk.journal).value;
                 && record.VerifyForRoom(room).Ok? && record.did == did && record.inputSequence >= 0
                 && (if record.status.Acknowledged? then
                       record.replySequence.Some?
                       && r.value == if apply then DeliveryRecovered(record.replySequence.value)
                                     else DeliveryAcknowledged(record.replySequence.value)
                     else ReportIsTrue(r.value, old(world.s), room, record))
                 && (Finished(r.value) ==>
                       apply && world.s.disk.journal.None?
                       && world.s.disk.file == RecoveredFile(old(world.path.saved), room, record))
  {
    ReachesItself(world.s);
    if !IsRoom(room) {
      return Err(InvalidRoomName);
    }
    if !IsDid(did) {
      return Err(InvalidDeliveryDid);
    }
    if confirmRetry && !apply {
      return Err(RetryRequiresApply);
    }
    var loaded := world.LoadJournal();
    if loaded.None? {
      return Ok(NoPendingDelivery);
    }
    var record := loaded.value;
    var verified := record.VerifyForRoom(room);
    if verified.Err? {
      return Err(verified.error);
    }
    if record.did != did {
      return Err(DifferentIdentity);
    }
    JournalIsOwn(world.s);
    if record.status.Acknowledged? {
      r := RecoverAcknowledged(world, state, room, record, apply);
    } else {
      r := RecoverPending(world, state, room, record, apply, confirmRetry);
    }
  }

  lemma JournalIsOwn(s: Sys)
    requires Reachable(s) && s.disk.journal.Some?
    ensures s.disk.journal.value.did == s.config.own
  {
    ReachableEvidence(s);
    assert EnvelopeOk(s.config.own, s.rooms, s.issued[|s.issued| - 1]);
  }
}
