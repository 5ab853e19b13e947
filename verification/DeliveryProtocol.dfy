// The crash-safe reply protocol as a step machine: the live responder, its
// delivery journal, the state file, the audit log, the recovery command, and
// the rooms and the network they talk to. A run interleaves the steps of one
// process at a time with steps of the network and of other room users, and
// the process may crash between any two steps.
module DeliveryProtocol {
  import opened Wrappers
  import Numerals
  import opened Messages
  import opened DidKey
  import opened Protocol
  import opened State
  import opened Quota
  import opened Audit
  import opened Delivery
  import opened Recovery

  // What is known of the server: it refuses a second record with the same
  // sender and nonce, however often and however late a request arrives; or it
  // does not, but no request is still under way when recovery reads the room.
  datatype ServerKind = RefusesReplay | DeliversPromptly

  datatype Config = Config(own: string, server: ServerKind)

  // An envelope prepared for a room.
  datatype Issued = Issued(room: string, record: DeliveryRecord)

  datatype AuditNote = AuditNote(room: string, fields: AuditFields)

  datatype Disk = Disk(file: StateFile, journal: Option<DeliveryRecord>, audit: seq<AuditNote>)

  // Where the live process stands in handling a message.
  datatype LivePoint =
    | Polling
    | Handling(m: RoomMessage, granted: bool, lookedUp: bool)
    | Prepared(m: RoomMessage, record: DeliveryRecord)
    | Posted(m: RoomMessage, record: DeliveryRecord)
    | Answered(m: RoomMessage, record: DeliveryRecord, reply: int)
    | Acked(m: RoomMessage, record: DeliveryRecord, reply: int)
    | Audited(m: RoomMessage, replied: bool)
    | Persisted

  datatype RecoveryPoint =
    | Inspecting | RetryReady | RetryPosted
    | Settling(reply: int) | Acknowledging(reply: int) | Recovering

  // A live process is metered if it was started with a capability file.
  datatype Life =
    | Down
    | Live(room: string, metered: bool, mem: StateFile, point: LivePoint)
    | Recovery(room: string, mem: StateFile, record: DeliveryRecord, step: RecoveryPoint)

  // Work done for a principal on its reservation number `rank`.
  datatype Work = Work(did: string, rank: int)

  // `issued`, `log`, `reserved`, `replies`, `lookups`, `clock` and `clockFell`
  // are history: no step depends on them. `log` is the reservation log that
  // never forgets, `reserved` what was granted in this run, with the limit in
  // force at the time.
  datatype Sys = Sys(
    config: Config, disk: Disk, life: Life, rooms: map<string, Room>, wire: multiset<Issued>,
    issued: seq<Issued>, clock: nat, clockFell: bool, log: Requests,
    reserved: seq<Attempt>, replies: seq<Work>, lookups: seq<Work>)

  function RoomOf(rooms: map<string, Room>, name: string): Room {
    if name in rooms then rooms[name] else []
  }

  predicate AgentSigned(own: string, m: RoomMessage) {
    m.sender == own && m.nonce.Some?
  }

  // The record a landing envelope becomes.
  function Landed(rooms: map<string, Room>, i: Issued): map<string, Room> {
    Appended(rooms, i.room, i.record.did, i.record.text, Some(Numerals.Decimal(i.record.nonce)))
  }

  function Appended(rooms: map<string, Room>, name: string, sender: string, text: string, nonce: Option<string>)
    : map<string, Room>
  {
    var room := RoomOf(rooms, name);
    rooms[name := room + [RoomMessage(|room| + 1, sender, text, nonce)]]
  }

  datatype Step =
    // the live process
    | StartLive(room: string, metered: bool)
    | SkipTo(sequence: nat)
    | SeeGeneration(generation: nat)
    | SaveGeneration
    | Take(m: RoomMessage)
    | Reserve(now: nat, limit: nat)
    | LookUp
    | Prepare(clock: nat, text: string)
    | Post
    | Answer(reply: int)
    | Acknowledge
    | AuditReply(fields: AuditFields)
    | AuditOther(fields: AuditFields)
    | Persist
    | ClearJournal
    // the recovery command
    | StartRecovery(room: string)
    | UseAcknowledgement
    | InspectRoom
    | Repost
    | RepostAnswer(reply: int)
    | RecoverAcknowledge
    | RecoverPersist
    | RecoverClear
    // everyone else
    | Crash
    | Land(envelope: Issued)
    | Lose(envelope: Issued)
    | Chatter(room: string, sender: string, text: string, nonce: Option<string>)

  // The envelope `Prepare` puts in the journal, if signing and checking pass.
  function Envelope(own: string, room: string, inputSequence: int, nonce: nat, text: string)
    : Option<DeliveryRecord>
  {
    match SignRoomMessage(own, room, nonce, text)
    case Err(_) => None
    case Ok(signed) =>
      match Create(room, inputSequence, own, nonce, signed.0, signed.1)
      case Err(_) => None
      case Ok(record) => Some(record)
  }

  lemma EnvelopeIs(own: string, room: string, inputSequence: int, nonce: nat, text: string)
    requires Envelope(own, room, inputSequence, nonce, text).Some?
    ensures var r := Envelope(own, room, inputSequence, nonce, text).value;
            && IsRoom(room) && r.VerifyForRoom(room).Ok? && WellFormedRecord(r) && r.status.Pending?
            && r.did == own && r.inputSequence == inputSequence && r.nonce == nonce && Sweep(text) == Ok(r.text)
  {
  }

  // The audit entry of a reply names the input and the posted record.
  predicate ReplyFields(m: RoomMessage, reply: int, f: AuditFields) {
    ValidateFields(f).Ok? && f.inputSequence == m.seqno && f.responseSequence == Some(reply)
    && (f.outcome.Sent? || f.outcome.SentReceipt?)
  }

  predicate OtherFields(m: RoomMessage, f: AuditFields) {
    ValidateFields(f).Ok? && f.inputSequence == m.seqno && (f.outcome.NothingSent? || f.outcome.ReceiptFailed?)
  }

  predicate NonceTaken(room: Room, record: DeliveryRecord) {
    exists k :: 0 <= k < |room| && room[k].sender == record.did && room[k].nonce == Some(Numerals.Decimal(record.nonce))
  }

  // What recover-delivery concludes from its one read of the room.
  function Seen(s: Sys): Inspection
    requires s.life.Recovery? && 0 <= s.life.record.inputSequence <= |RoomOf(s.rooms, s.life.room)|
  {
    Inspect(s.life.record,
            ReadRoom(s.life.room, RoomOf(s.rooms, s.life.room), s.life.record.inputSequence, READ_LIMIT))
  }

  function At(s: Sys, point: LivePoint): Life
    requires s.life.Live?
  {
    Live(s.life.room, s.life.metered, s.life.mem, point)
  }

  function ThisIssued(s: Sys): Issued
    requires s.life.Live? && (s.life.point.Prepared? || s.life.point.Posted?)
  {
    Issued(s.life.room, s.life.point.record)
  }

  // Work for the sender being handled, on its latest reservation.
  function OnReservation(s: Sys): seq<Work>
    requires s.life.Live? && s.life.point.Handling?
  {
    if !s.life.metered then []
    else [Work(s.life.point.m.sender, |History(s.log, s.life.point.m.sender)| - 1)]
  }

  // ---- The live process ----

  predicate CanStartLive(s: Sys, room: string, metered: bool) {
    s.life.Down? && s.disk.journal.None? && IsRoom(room)
  }

  function DoStartLive(s: Sys, room: string, metered: bool): Sys
    requires CanStartLive(s, room, metered)
  {
    s.(life := Live(room, metered, s.disk.file, Polling))
  }

  predicate CanSkipTo(s: Sys, sequence: nat) {
    s.life.Live? && s.life.point.Polling? && sequence >= s.life.mem.Cursor(s.life.room)
  }

  function DoSkipTo(s: Sys, sequence: nat): Sys
    requires CanSkipTo(s, sequence)
  {
    var mem := s.life.mem.(cursors := s.life.mem.cursors[s.life.room := sequence]);
    s.(life := Live(s.life.room, s.life.metered, mem, Polling), disk := s.disk.(file := mem))
  }

  predicate CanSeeGeneration(s: Sys, generation: nat) {
    s.life.Live? && s.life.point.Polling?
  }

  function DoSeeGeneration(s: Sys, generation: nat): Sys
    requires CanSeeGeneration(s, generation)
  {
    var mem := s.life.mem.(generations := s.life.mem.generations[s.life.room := generation]);
    s.(life := Live(s.life.room, s.life.metered, mem, Polling))
  }

  predicate CanSaveGeneration(s: Sys) {
    s.life.Live? && s.life.point.Polling?
  }

  function DoSaveGeneration(s: Sys): Sys
    requires CanSaveGeneration(s)
  {
    s.(disk := s.disk.(file := s.life.mem))
  }

  predicate CanTake(s: Sys, m: RoomMessage) {
    s.life.Live? && s.life.point.Polling? && m in RoomOf(s.rooms, s.life.room)
    && m.seqno > s.life.mem.Cursor(s.life.room)
  }

  function DoTake(s: Sys, m: RoomMessage): Sys
    requires CanTake(s, m)
  {
    s.(life := At(s, Handling(m, false, false)))
  }

  // The limit is that of the capability file as read for this message.
  predicate CanReserve(s: Sys, now: nat, limit: nat) {
    s.life.Live? && s.life.point.Handling? && !s.life.point.granted && s.life.metered
    && Allowed(s.life.mem.requests, Attempt(s.life.point.m.sender, now, limit))
  }

  function DoReserve(s: Sys, now: nat, limit: nat): Sys
    requires CanReserve(s, now, limit)
  {
    var p, did := s.life.point, s.life.point.m.sender;
    var mem := s.life.mem.(requests := Reserved(s.life.mem.requests, did, now, WINDOW));
    s.(life := Live(s.life.room, s.life.metered, mem, p.(granted := true)), disk := s.disk.(file := mem),
       clock := now, clockFell := s.clockFell || now < s.clock, log := Logged(s.log, did, now),
       reserved := s.reserved + [Attempt(did, now, limit)])
  }

  predicate CanLookUp(s: Sys) {
    s.life.Live? && s.life.point.Handling? && !s.life.point.lookedUp
    && (s.life.metered ==> s.life.point.granted)
  }

  function DoLookUp(s: Sys): Sys
    requires CanLookUp(s)
  {
    s.(life := At(s, s.life.point.(lookedUp := true)),
       lookups := s.lookups + OnReservation(s))
  }

  predicate CanPrepare(s: Sys, clock: nat, text: string) {
    s.life.Live? && s.life.point.Handling? && s.disk.journal.None?
    && (s.life.metered ==> s.life.point.granted)
    && s.life.point.m.IsSigned() && s.life.point.m.sender != s.config.own
    && var nonce := NextNonce(s.life.mem.NonceMark(s.life.room), clock);
       nonce <= MAX_NONCE && Envelope(s.config.own, s.life.room, s.life.point.m.seqno, nonce, text).Some?
  }

  function DoPrepare(s: Sys, clock: nat, text: string): Sys
    requires CanPrepare(s, clock, text)
  {
    var m, room := s.life.point.m, s.life.room;
    var nonce := NextNonce(s.life.mem.NonceMark(room), clock);
    var record := Envelope(s.config.own, room, m.seqno, nonce, text).value;
    var mem := s.life.mem.(nonces := s.life.mem.nonces[room := nonce]);
    s.(life := Live(room, s.life.metered, mem, Prepared(m, record)), disk := s.disk.(journal := Some(record)),
       issued := s.issued + [Issued(room, record)],
       replies := s.replies + OnReservation(s))
  }

  predicate CanPost(s: Sys) {
    s.life.Live? && s.life.point.Prepared?
  }

  function DoPost(s: Sys): Sys
    requires CanPost(s)
  {
    s.(life := At(s, Posted(s.life.point.m, s.life.point.record)), wire := s.wire + multiset{ThisIssued(s)})
  }

  predicate CanAnswer(s: Sys, reply: int) {
    s.life.Live? && s.life.point.Posted?
    && 1 <= reply <= |RoomOf(s.rooms, s.life.room)|
    && s.life.point.record.Matches(RoomOf(s.rooms, s.life.room)[reply - 1])
  }

  function DoAnswer(s: Sys, reply: int): Sys
    requires CanAnswer(s, reply)
  {
    s.(life := At(s, Answered(s.life.point.m, s.life.point.record, reply)))
  }

  predicate CanAcknowledge(s: Sys) {
    s.life.Live? && s.life.point.Answered? && s.life.point.record.Acknowledge(s.life.point.reply).Ok?
  }

  function DoAcknowledge(s: Sys): Sys
    requires CanAcknowledge(s)
  {
    var p := s.life.point;
    s.(life := At(s, Acked(p.m, p.record, p.reply)),
       disk := s.disk.(journal := Some(p.record.Acknowledge(p.reply).value)))
  }

  predicate CanAuditReply(s: Sys, fields: AuditFields) {
    s.life.Live? && s.life.point.Acked? && ReplyFields(s.life.point.m, s.life.point.reply, fields)
  }

  function DoAuditReply(s: Sys, fields: AuditFields): Sys
    requires CanAuditReply(s, fields)
  {
    s.(life := At(s, Audited(s.life.point.m, true)),
       disk := s.disk.(audit := s.disk.audit + [AuditNote(s.life.room, fields)]))
  }

  predicate CanAuditOther(s: Sys, fields: AuditFields) {
    s.life.Live? && s.life.point.Handling? && OtherFields(s.life.point.m, fields)
  }

  function DoAuditOther(s: Sys, fields: AuditFields): Sys
    requires CanAuditOther(s, fields)
  {
    s.(life := At(s, Audited(s.life.point.m, false)),
       disk := s.disk.(audit := s.disk.audit + [AuditNote(s.life.room, fields)]))
  }

  predicate CanPersist(s: Sys) {
    s.life.Live? && s.life.point.Audited? && s.life.point.m.seqno >= 0
  }

  function DoPersist(s: Sys): Sys
    requires CanPersist(s)
  {
    var mem := s.life.mem.(cursors := s.life.mem.cursors[s.life.room := s.life.point.m.seqno]);
    s.(life := Live(s.life.room, s.life.metered, mem, if s.life.point.replied then Persisted else Polling),
       disk := s.disk.(file := mem))
  }

  predicate CanClearJournal(s: Sys) {
    s.life.Live? && s.life.point.Persisted?
  }

  function DoClearJournal(s: Sys): Sys
    requires CanClearJournal(s)
  {
    s.(life := At(s, Polling), disk := s.disk.(journal := None))
  }

  // ---- The recovery command ----

  predicate CanStartRecovery(s: Sys, room: string) {
    s.life.Down? && s.disk.journal.Some?
    && s.disk.journal.value.VerifyForRoom(room).Ok? && s.disk.journal.value.did == s.config.own
  }

  function DoStartRecovery(s: Sys, room: string): Sys
    requires CanStartRecovery(s, room)
  {
    s.(life := Recovery(room, s.disk.file, s.disk.journal.value, Inspecting))
  }

  predicate CanUseAcknowledgement(s: Sys) {
    s.life.Recovery? && s.life.step.Inspecting? && s.life.record.status.Acknowledged?
    && s.life.record.replySequence.Some?
  }

  function DoUseAcknowledgement(s: Sys): Sys
    requires CanUseAcknowledgement(s)
  {
    s.(life := s.life.(step := Settling(s.life.record.replySequence.value)))
  }

  predicate CanInspectRoom(s: Sys) {
    s.life.Recovery? && s.life.step.Inspecting? && s.life.record.status.Pending?
    && (s.config.server.DeliversPromptly? ==> s.wire == multiset{})
    && 0 <= s.life.record.inputSequence <= |RoomOf(s.rooms, s.life.room)|
    && var seen := Seen(s);
       seen.Found? || seen.NotFound?
  }

  function DoInspectRoom(s: Sys): Sys
    requires CanInspectRoom(s)
  {
    s.(life := s.life.(step := match Seen(s) case Found(reply) => Settling(reply) case _ => RetryReady))
  }

  predicate CanRepost(s: Sys) {
    s.life.Recovery? && s.life.step.RetryReady?
  }

  function DoRepost(s: Sys): Sys
    requires CanRepost(s)
  {
    s.(life := s.life.(step := RetryPosted), wire := s.wire + multiset{Issued(s.life.room, s.life.record)})
  }

  predicate CanRepostAnswer(s: Sys, reply: int) {
    s.life.Recovery? && s.life.step.RetryPosted?
    && 1 <= reply <= |RoomOf(s.rooms, s.life.room)|
    && s.life.record.Matches(RoomOf(s.rooms, s.life.room)[reply - 1])
  }

  function DoRepostAnswer(s: Sys, reply: int): Sys
    requires CanRepostAnswer(s, reply)
  {
    s.(life := s.life.(step := Settling(reply)))
  }

  predicate CanRecoverAcknowledge(s: Sys) {
    s.life.Recovery? && s.life.step.Settling? && s.life.record.Acknowledge(s.life.step.reply).Ok?
  }

  function DoRecoverAcknowledge(s: Sys): Sys
    requires CanRecoverAcknowledge(s)
  {
    s.(life := s.life.(step := Acknowledging(s.life.step.reply)),
       disk := s.disk.(journal := Some(s.life.record.Acknowledge(s.life.step.reply).value)))
  }

  predicate CanRecoverPersist(s: Sys) {
    s.life.Recovery? && s.life.step.Acknowledging? && s.life.record.inputSequence >= 0
  }

  function DoRecoverPersist(s: Sys): Sys
    requires CanRecoverPersist(s)
  {
    var mem := RecoveredFile(s.life.mem, s.life.room, s.life.record);
    s.(life := Recovery(s.life.room, mem, s.life.record, Recovering), disk := s.disk.(file := mem))
  }

  predicate CanRecoverClear(s: Sys) {
    s.life.Recovery? && s.life.step.Recovering?
  }

  function DoRecoverClear(s: Sys): Sys
    requires CanRecoverClear(s)
  {
    s.(life := Down, disk := s.disk.(journal := None))
  }

  // ---- Crashes, the network and other room users ----

  predicate CanCrash(s: Sys) {
    true
  }

  function DoCrash(s: Sys): Sys
    requires CanCrash(s)
  {
    s.(life := Down)
  }

  predicate CanLand(s: Sys, envelope: Issued) {
    envelope in s.wire
    && (s.config.server.RefusesReplay? ==> !NonceTaken(RoomOf(s.rooms, envelope.room), envelope.record))
  }

  function DoLand(s: Sys, envelope: Issued): Sys
    requires CanLand(s, envelope)
  {
    s.(rooms := Landed(s.rooms, envelope),
       wire := if s.config.server.RefusesReplay? then s.wire else s.wire - multiset{envelope})
  }

  predicate CanLose(s: Sys, envelope: Issued) {
    envelope in s.wire
  }

  function DoLose(s: Sys, envelope: Issued): Sys
    requires CanLose(s, envelope)
  {
    s.(wire := s.wire - multiset{envelope})
  }

  predicate CanChatter(s: Sys, room: string, sender: string, text: string, nonce: Option<string>) {
    !(sender == s.config.own && nonce.Some?)
  }

  function DoChatter(s: Sys, room: string, sender: string, text: string, nonce: Option<string>): Sys
    requires CanChatter(s, room, sender, text, nonce)
  {
    s.(rooms := Appended(s.rooms, room, sender, text, nonce))
  }

  predicate Enabled(s: Sys, step: Step) {
    match step
    case StartLive(room, metered) => CanStartLive(s, room, metered)
    case SkipTo(sequence) => CanSkipTo(s, sequence)
    case SeeGeneration(generation) => CanSeeGeneration(s, generation)
    case SaveGeneration => CanSaveGeneration(s)
    case Take(m) => CanTake(s, m)
    case Reserve(now, limit) => CanReserve(s, now, limit)
    case LookUp => CanLookUp(s)
    case Prepare(clock, text) => CanPrepare(s, clock, text)
    case Post => CanPost(s)
    case Answer(reply) => CanAnswer(s, reply)
    case Acknowledge => CanAcknowledge(s)
    case AuditReply(fields) => CanAuditReply(s, fields)
    case AuditOther(fields) => CanAuditOther(s, fields)
    case Persist => CanPersist(s)
    case ClearJournal => CanClearJournal(s)
    case StartRecovery(room) => CanStartRecovery(s, room)
    case UseAcknowledgement => CanUseAcknowledgement(s)
    case InspectRoom => CanInspectRoom(s)
    case Repost => CanRepost(s)
    case RepostAnswer(reply) => CanRepostAnswer(s, reply)
    case RecoverAcknowledge => CanRecoverAcknowledge(s)
    case RecoverPersist => CanRecoverPersist(s)
    case RecoverClear => CanRecoverClear(s)
    case Crash => CanCrash(s)
    case Land(envelope) => CanLand(s, envelope)
    case Lose(envelope) => CanLose(s, envelope)
    case Chatter(room, sender, text, nonce) => CanChatter(s, room, sender, text, nonce)
  }

  function Apply(s: Sys, step: Step): Sys
    requires Enabled(s, step)
  {
    match step
    case StartLive(room, metered) => DoStartLive(s, room, metered)
    case SkipTo(sequence) => DoSkipTo(s, sequence)
    case SeeGeneration(generation) => DoSeeGeneration(s, generation)
    case SaveGeneration => DoSaveGeneration(s)
    case Take(m) => DoTake(s, m)
    case Reserve(now, limit) => DoReserve(s, now, limit)
    case LookUp => DoLookUp(s)
    case Prepare(clock, text) => DoPrepare(s, clock, text)
    case Post => DoPost(s)
    case Answer(reply) => DoAnswer(s, reply)
    case Acknowledge => DoAcknowledge(s)
    case AuditReply(fields) => DoAuditReply(s, fields)
    case AuditOther(fields) => DoAuditOther(s, fields)
    case Persist => DoPersist(s)
    case ClearJournal => DoClearJournal(s)
    case StartRecovery(room) => DoStartRecovery(s, room)
    case UseAcknowledgement => DoUseAcknowledgement(s)
    case InspectRoom => DoInspectRoom(s)
    case Repost => DoRepost(s)
    case RepostAnswer(reply) => DoRepostAnswer(s, reply)
    case RecoverAcknowledge => DoRecoverAcknowledge(s)
    case RecoverPersist => DoRecoverPersist(s)
    case RecoverClear => DoRecoverClear(s)
    case Crash => DoCrash(s)
    case Land(envelope) => DoLand(s, envelope)
    case Lose(envelope) => DoLose(s, envelope)
    case Chatter(room, sender, text, nonce) => DoChatter(s, room, sender, text, nonce)
  }

  predicate IsRecoveryStep(step: Step) {
    || step.StartRecovery? || step.UseAcknowledgement? || step.InspectRoom? || step.Repost? || step.RepostAnswer?
    || step.RecoverAcknowledge? || step.RecoverPersist? || step.RecoverClear?
  }

  predicate IsOutsideStep(step: Step) {
    step.Crash? || step.Land? || step.Lose? || step.Chatter?
  }

  predicate IsLiveStep(step: Step) {
    !IsRecoveryStep(step) && !IsOutsideStep(step)
  }

  // `steps` leads from s to t.
  predicate Runs(s: Sys, steps: seq<Step>, t: Sys)
    decreases steps
  {
    if steps == [] then s == t
    else Enabled(s, steps[0]) && Runs(Apply(s, steps[0]), steps[1..], t)
  }

  ghost predicate Reaches(s: Sys, t: Sys) {
    exists steps :: Runs(s, steps, t)
  }

  // A fresh deployment: nothing in flight, saved marks above every nonce the
  // identity has used, and all its nonces in a room distinct.
  predicate Init(s: Sys) {
    && KeyFromDid(s.config.own).Ok?
    && s.life.Down? && s.disk.journal.None? && s.disk.audit == [] && s.wire == multiset{} && s.issued == []
    && !s.clockFell && s.clock == 0 && s.log == s.disk.file.requests && Ordered(s.log)
    && s.reserved == [] && s.replies == [] && s.lookups == []
    && forall q :: q in s.rooms ==>
                     Contiguous(s.rooms[q]) && EarlierRecords(s.config.own, s.rooms[q], s.disk.file.NonceMark(q))
  }

  predicate EarlierRecords(own: string, room: Room, mark: nat) {
    && (forall k :: 0 <= k < |room| && AgentSigned(own, room[k]) ==> Numerals.NumberOf(room[k].nonce.value) <= mark)
    && (forall j, k :: 0 <= j < k < |room| && AgentSigned(own, room[j]) && AgentSigned(own, room[k]) ==>
                         room[j].nonce != room[k].nonce)
  }
}
