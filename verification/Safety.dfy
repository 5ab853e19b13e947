// The inductive invariant of the reply protocol and what follows from it.
module Safety {
  import opened Wrappers
  import Numerals
  import opened Messages
  import opened DidKey
  import opened Protocol
  import opened State
  import Quota
  import opened Audit
  import opened Delivery
  import opened Recovery
  import opened DeliveryProtocol

  // ---- The invariant, part by part ----

  predicate RoomsOk(rooms: map<string, Room>) {
    forall q :: q in rooms ==> Contiguous(rooms[q])
  }

  // The journal's envelope before acknowledgement.
  function AsPending(r: DeliveryRecord): DeliveryRecord {
    r.(status := Pending, replySequence := None)
  }

  predicate EnvelopeOk(own: string, rooms: map<string, Room>, i: Issued) {
    && IsRoom(i.room) && i.record.VerifyForRoom(i.room).Ok? && WellFormedRecord(i.record)
    && i.record.status.Pending? && i.record.did == own
    && i.record.inputSequence <= |RoomOf(rooms, i.room)|
  }

  // Every envelope ever prepared is sound, and in each room nonces and inputs
  // strictly increase.
  predicate IssuedOk(own: string, rooms: map<string, Room>, issued: seq<Issued>) {
    && (forall k :: 0 <= k < |issued| ==> EnvelopeOk(own, rooms, issued[k]))
    && (forall j, k :: 0 <= j < k < |issued| && issued[j].room == issued[k].room ==>
                         issued[j].record.nonce < issued[k].record.nonce
                         && issued[j].record.inputSequence < issued[k].record.inputSequence)
  }

  // A journal holds the envelope prepared last, and an acknowledgement in it
  // names a record of the room that carries it.
  predicate JournalOk(journal: Option<DeliveryRecord>, issued: seq<Issued>, rooms: map<string, Room>) {
    journal.Some? ==>
      && issued != [] && issued[|issued| - 1].record == AsPending(journal.value)
      && WellFormedRecord(journal.value)
      && (journal.value.replySequence.Some? ==>
            ReplyPosted(RoomOf(rooms, issued[|issued| - 1].room), journal.value, journal.value.replySequence.value))
  }

  predicate ReplyPosted(room: Room, record: DeliveryRecord, reply: int) {
    0 <= record.inputSequence < reply <= |room| && record.Matches(room[reply - 1])
  }

  // Envelopes no longer in the journal.
  function SettledCount(journal: Option<DeliveryRecord>, issued: seq<Issued>): int {
    |issued| - (if journal.Some? then 1 else 0)
  }

  // Settled envelopes lie behind the saved cursor and nonce mark.
  predicate MarksOk(file: StateFile, journal: Option<DeliveryRecord>, issued: seq<Issued>) {
    forall k :: 0 <= k < SettledCount(journal, issued) ==> Behind(file, issued[k])
  }

  predicate Behind(file: StateFile, i: Issued) {
    i.record.inputSequence <= file.Cursor(i.room) && i.record.nonce <= file.NonceMark(i.room)
  }

  // Agent-signed records of a room: one per nonce; a record with an issued
  // nonce is that envelope, after its input; and no nonce lies above the mark
  // except the journal's.
  predicate RecordsOk(own: string, name: string, room: Room, issued: seq<Issued>) {
    && (forall j, k :: 0 <= j < k < |room| && AgentSigned(own, room[j]) && AgentSigned(own, room[k]) ==>
                         room[j].nonce != room[k].nonce)
    && (forall k, i :: 0 <= k < |room| && 0 <= i < |issued| && AgentSigned(own, room[k]) && issued[i].room == name
                       && room[k].nonce == Some(Numerals.Decimal(issued[i].record.nonce)) ==>
                         issued[i].record.Matches(room[k]) && issued[i].record.inputSequence <= k)
  }

  predicate NoncesMarked(own: string, name: string, room: Room, file: StateFile, issued: seq<Issued>) {
    forall k :: 0 <= k < |room| && AgentSigned(own, room[k]) ==>
                  || Numerals.NumberOf(room[k].nonce.value) <= file.NonceMark(name)
                  || (issued != [] && issued[|issued| - 1].room == name
                      && room[k].nonce == Some(Numerals.Decimal(issued[|issued| - 1].record.nonce)))
  }

  predicate RecordsEverywhere(own: string, rooms: map<string, Room>, issued: seq<Issued>) {
    forall q :: q in rooms ==> RecordsOk(own, q, rooms[q], issued)
  }

  predicate MarkedEverywhere(own: string, rooms: map<string, Room>, file: StateFile, issued: seq<Issued>) {
    forall q :: q in rooms ==> NoncesMarked(own, q, rooms[q], file, issued)
  }

  // The issued envelopes if the last one is in the journal, else none.
  function InJournal(s: Sys): seq<Issued> {
    if s.disk.journal.Some? then s.issued else []
  }

  predicate NoCopy(rooms: map<string, Room>, i: Issued) {
    forall k :: 0 <= k < |RoomOf(rooms, i.room)| ==> !i.record.Matches(RoomOf(rooms, i.room)[k])
  }

  // Requests under way are prepared envelopes; a server that does not refuse
  // replays has at most one, for a pending journal and with no copy posted.
  predicate WireOk(s: Sys) {
    RequestsOk(s.config.server, s.wire, s.disk.journal, s.issued, s.rooms)
  }

  predicate RequestsOk(server: ServerKind, wire: multiset<Issued>, journal: Option<DeliveryRecord>,
                       issued: seq<Issued>, rooms: map<string, Room>)
  {
    && (forall i :: i in wire ==> i in issued)
    && (server.DeliversPromptly? ==>
          forall i :: i in wire ==>
                        wire == multiset{i} && journal.Some? && i == issued[|issued| - 1] && NoCopy(rooms, i))
  }

  // Nothing of this envelope is posted or under way.
  predicate Unsent(s: Sys, i: Issued) {
    s.config.server.DeliversPromptly? ==> s.wire == multiset{} && NoCopy(s.rooms, i)
  }

  // Memory agrees with the state file except for what the file does not need.
  predicate SameMarks(mem: StateFile, file: StateFile) {
    mem.cursors == file.cursors && mem.nonces == file.nonces && mem.requests == file.requests
  }

  // Memory after a nonce was taken for an envelope in the journal.
  predicate AheadBy(mem: StateFile, file: StateFile, room: string, record: DeliveryRecord) {
    && mem.cursors == file.cursors && mem.requests == file.requests
    && mem.nonces == file.nonces[room := record.nonce]
    && file.NonceMark(room) < record.nonce
    && file.Cursor(room) < record.inputSequence
  }

  // The live process holds `record`, acknowledged as `reply` or not yet.
  predicate Holding(s: Sys, m: RoomMessage, record: DeliveryRecord, reply: Option<int>) {
    && s.life.Live? && AheadBy(s.life.mem, s.disk.file, s.life.room, record)
    && s.issued != [] && s.issued[|s.issued| - 1] == Issued(s.life.room, record)
    && record.inputSequence == m.seqno
    && s.disk.journal == Some(if reply.None? then record else record.(status := Acknowledged, replySequence := reply))
  }

  predicate LiveOk(s: Sys)
    requires s.life.Live?
  {
    var room := RoomOf(s.rooms, s.life.room);
    IsRoom(s.life.room)
    && match s.life.point
       case Polling => SameMarks(s.life.mem, s.disk.file) && s.disk.journal.None?
       case Handling(m, granted, lookedUp) =>
         SameMarks(s.life.mem, s.disk.file) && s.disk.journal.None?
         && m.seqno > s.disk.file.Cursor(s.life.room) && m.seqno <= |room|
       case Prepared(m, record) => Holding(s, m, record, None) && Unsent(s, Issued(s.life.room, record))
       case Posted(m, record) => Holding(s, m, record, None)
       case Answered(m, record, reply) => Holding(s, m, record, None) && ReplyPosted(room, record, reply)
       case Acked(m, record, reply) => Holding(s, m, record, Some(reply)) && ReplyPosted(room, record, reply)
       case Audited(m, replied) =>
         if replied then
           s.disk.journal.Some? && s.disk.journal.value.replySequence.Some?
           && Holding(s, m, AsPending(s.disk.journal.value), s.disk.journal.value.replySequence)
         else
           SameMarks(s.life.mem, s.disk.file) && s.disk.journal.None? && m.seqno > s.disk.file.Cursor(s.life.room)
       case Persisted =>
         SameMarks(s.life.mem, s.disk.file) && SettledJournal(s)
  }

  // The journal is acknowledged and its envelope lies behind the saved marks.
  predicate SettledJournal(s: Sys) {
    s.disk.journal.Some? && s.disk.journal.value.status.Acknowledged?
    && s.issued != [] && Behind(s.disk.file, s.issued[|s.issued| - 1])
  }

  predicate RecoveryOk(s: Sys)
    requires s.life.Recovery?
  {
    var room := RoomOf(s.rooms, s.life.room);
    var i := Issued(s.life.room, AsPending(s.life.record));
    && SameMarks(s.life.mem, s.disk.file)
    && s.issued != [] && s.issued[|s.issued| - 1] == i && s.disk.journal.Some?
    && WellFormedRecord(s.life.record)
    && match s.life.step
       case Inspecting => s.disk.journal.value == s.life.record
       case RetryReady => s.disk.journal.value == s.life.record && s.life.record == i.record && Unsent(s, i)
       case RetryPosted => s.disk.journal.value == s.life.record && s.life.record == i.record
       case Settling(reply) =>
         s.disk.journal.value == s.life.record && ReplyPosted(room, s.life.record, reply)
         && (s.life.record.status.Acknowledged? ==> s.life.record.replySequence == Some(reply))
       case Acknowledging(reply) => s.disk.journal.value.status.Acknowledged?
       case Recovering => SettledJournal(s)
  }

  predicate LifeOk(s: Sys) {
    match s.life
    case Down => true
    case Live(_, _, _, _) => LiveOk(s)
    case Recovery(_, _, _, _) => RecoveryOk(s)
  }

  // Everything but the process: what a crash leaves behind.
  predicate Core(s: Sys) {
    && KeyFromDid(s.config.own).Ok?
    && RoomsOk(s.rooms)
    && IssuedOk(s.config.own, s.rooms, s.issued)
    && JournalOk(s.disk.journal, s.issued, s.rooms)
    && MarksOk(s.disk.file, s.disk.journal, s.issued)
    && RecordsEverywhere(s.config.own, s.rooms, s.issued)
    && MarkedEverywhere(s.config.own, s.rooms, s.disk.file, InJournal(s))
    && WireOk(s)
  }

  predicate Inv(s: Sys) {
    Core(s) && LifeOk(s)
  }

  lemma InitHolds(s: Sys)
    requires Init(s)
    ensures Inv(s)
  {
  }

  // Such deployments exist: any saved state with no room in use yet.
  function FreshSys(config: Config, file: StateFile): Sys {
    Sys(config, Disk(file, None, []), Down, map[], multiset{}, [], 0, false, file.requests, [], [], [])
  }

  lemma FreshDeployment(config: Config, file: StateFile)
    requires KeyFromDid(config.own).Ok? && Quota.Ordered(file.requests)
    ensures Reachable(FreshSys(config, file))
  {
    var s := FreshSys(config, file);
    assert Init(s) && Runs(s, [], s);
  }

  // ---- Kinds of change ----

  // A new state file whose cursors and marks are no lower.
  ghost predicate Forward(file: StateFile, file': StateFile) {
    forall q {:trigger file'.Cursor(q)} {:trigger file'.NonceMark(q)} ::
      file.Cursor(q) <= file'.Cursor(q) && file.NonceMark(q) <= file'.NonceMark(q)
  }

  lemma NewFileKeeps(s: Sys, s': Sys)
    requires Core(s) && Forward(s.disk.file, s'.disk.file)
    requires s'.config == s.config && s'.rooms == s.rooms && s'.wire == s.wire && s'.issued == s.issued
    requires s'.disk.journal == s.disk.journal
    ensures Core(s')
  {
    MarksForward(s.disk.file, s'.disk.file, s.disk.journal, s.issued);
    forall q | q in s'.rooms
      ensures NoncesMarked(s'.config.own, q, s'.rooms[q], s'.disk.file, InJournal(s'))
    {
      NoncesForward(s.config.own, q, s.rooms[q], s.disk.file, s'.disk.file, InJournal(s));
    }
  }

  lemma MarksForward(file: StateFile, file': StateFile, journal: Option<DeliveryRecord>, issued: seq<Issued>)
    requires MarksOk(file, journal, issued) && Forward(file, file')
    ensures MarksOk(file', journal, issued)
  {
    forall k | 0 <= k < SettledCount(journal, issued)
      ensures Behind(file', issued[k])
    {
      assert Behind(file, issued[k]);
      assert file.Cursor(issued[k].room) <= file'.Cursor(issued[k].room);
    }
  }

  lemma NoncesForward(own: string, name: string, room: Room, file: StateFile, file': StateFile, issued: seq<Issued>)
    requires NoncesMarked(own, name, room, file, issued) && Forward(file, file')
    ensures NoncesMarked(own, name, room, file', issued)
  {
    assert file.NonceMark(name) <= file'.NonceMark(name);
  }

  // Nothing that outlives the process changed.
  lemma CoreUnchanged(s: Sys, s': Sys)
    requires Core(s)
    requires s'.config == s.config && s'.rooms == s.rooms && s'.wire == s.wire && s'.issued == s.issued
    requires s'.disk.journal == s.disk.journal && s'.disk.file == s.disk.file
    ensures Core(s')
  {
  }

  // Removing a journal whose envelope lies behind the saved marks.
  lemma ClearedKeeps(s: Sys, s': Sys)
    requires Core(s) && SettledJournal(s)
    requires s'.config == s.config && s'.rooms == s.rooms && s'.wire == s.wire && s'.issued == s.issued
    requires s'.disk.file == s.disk.file && s'.disk.journal.None?
    ensures Core(s')
  {
    SettledMarks(s.disk.file, s.disk.journal, s.issued);
    forall q | q in s'.rooms
      ensures NoncesMarked(s'.config.own, q, s'.rooms[q], s'.disk.file, InJournal(s'))
    {
      SettledNonces(s.config.own, q, s.rooms[q], s.disk.file, s.issued);
    }
    PostedMeansNothingUnderWay(s);
  }

  lemma SettledMarks(file: StateFile, journal: Option<DeliveryRecord>, issued: seq<Issued>)
    requires MarksOk(file, journal, issued) && (issued != [] ==> Behind(file, issued[|issued| - 1]))
    ensures MarksOk(file, None, issued)
  {
  }

  lemma SettledNonces(own: string, name: string, room: Room, file: StateFile, issued: seq<Issued>)
    requires NoncesMarked(own, name, room, file, issued)
    requires issued != [] ==> Behind(file, issued[|issued| - 1])
    ensures NoncesMarked(own, name, room, file, [])
  {
    if issued != [] {
      Numerals.DecimalRoundTrip(issued[|issued| - 1].record.nonce);
    }
  }

  // With an acknowledged journal a prompt server has no request under way.
  lemma PostedMeansNothingUnderWay(s: Sys)
    requires Core(s) && s.disk.journal.Some? && s.disk.journal.value.status.Acknowledged?
    ensures s.config.server.DeliversPromptly? ==> s.wire == multiset{}
  {
    forall i | i in s.wire && s.config.server.DeliversPromptly?
      ensures false
    {
    }
  }

  // Acknowledging the journal with a record that carries its envelope.
  lemma AcknowledgedKeeps(s: Sys, s': Sys, reply: int)
    requires Core(s) && s.disk.journal.Some? && s.disk.journal.value.Acknowledge(reply).Ok?
    requires ReplyPosted(RoomOf(s.rooms, s.issued[|s.issued| - 1].room), s.disk.journal.value, reply)
    requires s'.config == s.config && s'.rooms == s.rooms && s'.wire == s.wire && s'.issued == s.issued
    requires s'.disk.file == s.disk.file
    requires s'.disk.journal == Some(s.disk.journal.value.Acknowledge(reply).value)
    ensures Core(s')
  {
  }

  lemma FewerRequestsKeep(s: Sys, s': Sys)
    requires Inv(s)
    requires s' == s.(wire := s'.wire) && forall i :: i in s'.wire ==> i in s.wire
    requires s.config.server.DeliversPromptly? ==> s'.wire == multiset{}
    ensures Inv(s')
  {
    FewerRequestsLeaveLife(s, s');
  }

  lemma FewerRequestsLeaveLife(s: Sys, s': Sys)
    requires LifeOk(s)
    requires s' == s.(wire := s'.wire)
    requires s.config.server.DeliversPromptly? ==> s'.wire == multiset{}
    ensures LifeOk(s')
  {
    match s.life
    case Down =>
    case Live(_, _, _, _) => assert LiveOk(s');
    case Recovery(_, _, _, _) => assert RecoveryOk(s');
  }

  // A room grew by one record, which is not the agent's or is an envelope
  // that was not posted before.
  predicate Grown(rooms: map<string, Room>, rooms': map<string, Room>, name: string, m: RoomMessage) {
    m.seqno == |RoomOf(rooms, name)| + 1 && rooms' == rooms[name := RoomOf(rooms, name) + [m]]
  }

  predicate NewRecordOk(own: string, name: string, room: Room, m: RoomMessage, file: StateFile,
                        issued: seq<Issued>, inJournal: seq<Issued>)
  {
    AgentSigned(own, m) ==>
      && (forall k :: 0 <= k < |room| && AgentSigned(own, room[k]) ==> room[k].nonce != m.nonce)
      && (forall i :: 0 <= i < |issued| && issued[i].room == name
                      && m.nonce == Some(Numerals.Decimal(issued[i].record.nonce)) ==>
                        issued[i].record.Matches(m) && issued[i].record.inputSequence <= |room|)
      && NoncesMarked(own, name, [m], file, inJournal)
  }

  lemma RecordsGrow(s: Sys, rooms': map<string, Room>, name: string, m: RoomMessage)
    requires RoomsOk(s.rooms) && Grown(s.rooms, rooms', name, m)
    requires RecordsEverywhere(s.config.own, s.rooms, s.issued)
    requires MarkedEverywhere(s.config.own, s.rooms, s.disk.file, InJournal(s))
    requires NewRecordOk(s.config.own, name, RoomOf(s.rooms, name), m, s.disk.file, s.issued, InJournal(s))
    ensures RecordsEverywhere(s.config.own, rooms', s.issued)
    ensures MarkedEverywhere(s.config.own, rooms', s.disk.file, InJournal(s))
    ensures RoomsOk(rooms')
  {
    var room := RoomOf(s.rooms, name);
    RoomGrows(s.config.own, name, room, m, s.disk.file, s.issued, InJournal(s));
    forall q | q in rooms'
      ensures RecordsOk(s.config.own, q, rooms'[q], s.issued)
      ensures NoncesMarked(s.config.own, q, rooms'[q], s.disk.file, InJournal(s))
    {
      assert rooms'[q] == if q == name then room + [m] else s.rooms[q];
    }
  }

  lemma RoomGrows(own: string, name: string, room: Room, m: RoomMessage, file: StateFile,
                  issued: seq<Issued>, inJournal: seq<Issued>)
    requires RecordsOk(own, name, room, issued) && NoncesMarked(own, name, room, file, inJournal)
    requires NewRecordOk(own, name, room, m, file, issued, inJournal)
    ensures RecordsOk(own, name, room + [m], issued)
    ensures NoncesMarked(own, name, room + [m], file, inJournal)
  {
    var room' := room + [m];
    forall k | 0 <= k < |room'| && AgentSigned(own, room'[k])
      ensures NoncesMarked(own, name, [room'[k]], file, inJournal)
    {
      if k == |room| {
        assert room'[k] == m;
      }
    }
    forall k | 0 <= k < |room'| && AgentSigned(own, room'[k])
      ensures || Numerals.NumberOf(room'[k].nonce.value) <= file.NonceMark(name)
              || (inJournal != [] && inJournal[|inJournal| - 1].room == name
                  && room'[k].nonce == Some(Numerals.Decimal(inJournal[|inJournal| - 1].record.nonce)))
    {
      assert AgentSigned(own, [room'[k]][0]);
    }
  }

  lemma EnvelopesGrow(s: Sys, rooms': map<string, Room>, name: string, m: RoomMessage)
    requires Core(s) && Grown(s.rooms, rooms', name, m)
    ensures IssuedOk(s.config.own, rooms', s.issued)
    ensures JournalOk(s.disk.journal, s.issued, rooms')
  {
    forall k | 0 <= k < |s.issued|
      ensures EnvelopeOk(s.config.own, rooms', s.issued[k])
    {
      assert EnvelopeOk(s.config.own, s.rooms, s.issued[k]);
    }
  }

  lemma ReplyStaysPosted(rooms: map<string, Room>, rooms': map<string, Room>, name: string, m: RoomMessage)
    requires Grown(rooms, rooms', name, m)
    ensures forall q, record, reply {:trigger ReplyPosted(RoomOf(rooms', q), record, reply)} ::
              ReplyPosted(RoomOf(rooms, q), record, reply) ==> ReplyPosted(RoomOf(rooms', q), record, reply)
  {
  }

  // The process is not disturbed by a record it did not wait to be absent.
  predicate Undisturbed(s: Sys, s': Sys, name: string, m: RoomMessage) {
    && Grown(s.rooms, s'.rooms, name, m)
    && s' == s.(rooms := s'.rooms, wire := s'.wire)
    && (s'.config.server.DeliversPromptly? ==>
          s.wire != multiset{} || (s'.wire == multiset{} && !AgentSigned(s.config.own, m)))
  }

  lemma UnsentGrows(s: Sys, s': Sys, name: string, m: RoomMessage, i: Issued)
    requires Undisturbed(s, s', name, m) && i.record.did == s.config.own
    ensures Unsent(s, i) ==> Unsent(s', i)
  {
    if Unsent(s, i) && s.config.server.DeliversPromptly? {
      var room, room' := RoomOf(s.rooms, i.room), RoomOf(s'.rooms, i.room);
      assert room' == room || room' == room + [m];
      forall k | 0 <= k < |room'|
        ensures !i.record.Matches(room'[k])
      {
        assert k < |room| ==> !i.record.Matches(room[k]);
      }
    }
  }

  lemma LiveGrows(s: Sys, s': Sys, name: string, m: RoomMessage)
    requires s.life.Live? && LiveOk(s) && Undisturbed(s, s', name, m)
    requires IssuedOk(s.config.own, s.rooms, s.issued)
    ensures LiveOk(s')
  {
    ReplyStaysPosted(s.rooms, s'.rooms, name, m);
    if s.life.point.Prepared? {
      UnsentGrows(s, s', name, m, Issued(s.life.room, s.life.point.record));
    }
  }

  lemma RecoveryGrows(s: Sys, s': Sys, name: string, m: RoomMessage)
    requires s.life.Recovery? && RecoveryOk(s) && Undisturbed(s, s', name, m)
    requires IssuedOk(s.config.own, s.rooms, s.issued)
    ensures RecoveryOk(s')
  {
    match s.life.step
    case Settling(reply) =>
      ReplyStaysPosted(s.rooms, s'.rooms, name, m);
      assert ReplyPosted(RoomOf(s'.rooms, s.life.room), s.life.record, reply);
    case RetryReady => UnsentGrows(s, s', name, m, Issued(s.life.room, s.life.record));
    case _ =>
  }

  lemma LifeGrows(s: Sys, s': Sys, name: string, m: RoomMessage)
    requires Inv(s) && Undisturbed(s, s', name, m)
    ensures LifeOk(s')
  {
    match s.life
    case Down =>
    case Live(_, _, _, _) => LiveGrows(s, s', name, m);
    case Recovery(_, _, _, _) => RecoveryGrows(s, s', name, m);
  }

  lemma GrowthKeeps(s: Sys, s': Sys, name: string, m: RoomMessage)
    requires Inv(s) && Undisturbed(s, s', name, m) && WireOk(s')
    requires NewRecordOk(s.config.own, name, RoomOf(s.rooms, name), m, s.disk.file, s.issued, InJournal(s))
    ensures Inv(s')
  {
    RecordsGrow(s, s'.rooms, name, m);
    EnvelopesGrow(s, s'.rooms, name, m);
    LifeGrows(s, s', name, m);
  }

  // ---- The steps ----

  lemma StartLiveKeeps(s: Sys, room: string, metered: bool)
    requires Inv(s) && CanStartLive(s, room, metered)
    ensures Inv(DoStartLive(s, room, metered))
  {
    CoreUnchanged(s, DoStartLive(s, room, metered));
  }

  lemma SkipToKeeps(s: Sys, sequence: nat)
    requires Inv(s) && CanSkipTo(s, sequence)
    ensures Inv(DoSkipTo(s, sequence))
  {
    NewFileKeeps(s, DoSkipTo(s, sequence));
  }

  lemma SeeGenerationKeeps(s: Sys, generation: nat)
    requires Inv(s) && CanSeeGeneration(s, generation)
    ensures Inv(DoSeeGeneration(s, generation))
  {
    CoreUnchanged(s, DoSeeGeneration(s, generation));
  }

  lemma SaveGenerationKeeps(s: Sys)
    requires Inv(s) && CanSaveGeneration(s)
    ensures Inv(DoSaveGeneration(s))
  {
    NewFileKeeps(s, DoSaveGeneration(s));
  }

  lemma TakeKeeps(s: Sys, m: RoomMessage)
    requires Inv(s) && CanTake(s, m)
    ensures Inv(DoTake(s, m))
  {
    CoreUnchanged(s, DoTake(s, m));
  }

  lemma ReserveKeeps(s: Sys, now: nat, limit: nat)
    requires Inv(s) && CanReserve(s, now, limit)
    ensures Inv(DoReserve(s, now, limit))
  {
    ReserveLife(s, now, limit);
    NewFileKeeps(s, DoReserve(s, now, limit));
  }

  lemma ReserveLife(s: Sys, now: nat, limit: nat)
    requires LifeOk(s) && CanReserve(s, now, limit)
    ensures LifeOk(DoReserve(s, now, limit)) && Forward(s.disk.file, DoReserve(s, now, limit).disk.file)
  {
  }

  lemma LookUpKeeps(s: Sys)
    requires Inv(s) && CanLookUp(s)
    ensures Inv(DoLookUp(s))
  {
    CoreUnchanged(s, DoLookUp(s));
  }

  // A nonce above the mark is not in the room yet.
  lemma FreshNonce(s: Sys, i: Issued)
    requires Core(s) && s.disk.journal.None? && i.record.nonce > s.disk.file.NonceMark(i.room)
    requires i.record.did == s.config.own
    ensures forall k :: 0 <= k < |RoomOf(s.rooms, i.room)| && AgentSigned(s.config.own, RoomOf(s.rooms, i.room)[k]) ==>
                          RoomOf(s.rooms, i.room)[k].nonce != Some(Numerals.Decimal(i.record.nonce))
    ensures NoCopy(s.rooms, i)
  {
    Numerals.DecimalRoundTrip(i.record.nonce);
  }

  lemma PreparedEnvelope(s: Sys, clock: nat, text: string)
    requires Inv(s) && CanPrepare(s, clock, text)
    ensures var i := Issued(s.life.room, DoPrepare(s, clock, text).disk.journal.value);
            && EnvelopeOk(s.config.own, s.rooms, i)
            && i.record.inputSequence == s.life.point.m.seqno > s.disk.file.Cursor(i.room)
            && i.record.nonce == NextNonce(s.disk.file.NonceMark(i.room), clock)
  {
    EnvelopeIs(s.config.own, s.life.room, s.life.point.m.seqno,
               NextNonce(s.life.mem.NonceMark(s.life.room), clock), text);
  }

  lemma IssuedGrows(s: Sys, i: Issued)
    requires Core(s) && s.disk.journal.None? && EnvelopeOk(s.config.own, s.rooms, i)
    requires i.record.inputSequence > s.disk.file.Cursor(i.room) && i.record.nonce > s.disk.file.NonceMark(i.room)
    ensures IssuedOk(s.config.own, s.rooms, s.issued + [i])
  {
    assert forall k :: 0 <= k < |s.issued| ==> Behind(s.disk.file, s.issued[k]);
  }

  lemma RecordsBeforePosting(s: Sys, i: Issued)
    requires Core(s) && s.disk.journal.None? && i.record.did == s.config.own
    requires i.record.nonce > s.disk.file.NonceMark(i.room)
    ensures RecordsEverywhere(s.config.own, s.rooms, s.issued + [i])
    ensures MarkedEverywhere(s.config.own, s.rooms, s.disk.file, s.issued + [i])
  {
    FreshNonce(s, i);
    forall q | q in s.rooms
      ensures RecordsOk(s.config.own, q, s.rooms[q], s.issued + [i])
    {
      assert s.rooms[q] == RoomOf(s.rooms, q);
      NewEnvelopeUnposted(s.config.own, q, s.rooms[q], s.issued, i);
    }
  }

  lemma NewEnvelopeUnposted(own: string, name: string, room: Room, issued: seq<Issued>, i: Issued)
    requires RecordsOk(own, name, room, issued)
    requires i.room == name ==>
               forall k :: 0 <= k < |room| && AgentSigned(own, room[k]) ==>
                             room[k].nonce != Some(Numerals.Decimal(i.record.nonce))
    ensures RecordsOk(own, name, room, issued + [i])
  {
  }

  lemma PrepareKeeps(s: Sys, clock: nat, text: string)
    requires Inv(s) && CanPrepare(s, clock, text)
    ensures Inv(DoPrepare(s, clock, text))
  {
    var s' := DoPrepare(s, clock, text);
    var i := Issued(s.life.room, s'.disk.journal.value);
    PreparedEnvelope(s, clock, text);
    IssuedGrows(s, i);
    RecordsBeforePosting(s, i);
    NothingUnderWay(s);
    FreshNonce(s, i);
    assert s'.issued == s.issued + [i];
    PreparedMarks(s.disk.file, s'.disk.journal, s.issued, i);
    PreparedHolding(s, clock, text);
  }

  lemma PreparedMarks(file: StateFile, journal: Option<DeliveryRecord>, issued: seq<Issued>, i: Issued)
    requires MarksOk(file, None, issued) && journal.Some?
    ensures MarksOk(file, journal, issued + [i])
  {
  }

  // With an empty journal a prompt server has no request under way.
  lemma NothingUnderWay(s: Sys)
    requires WireOk(s) && s.disk.journal.None?
    ensures s.config.server.DeliversPromptly? ==> s.wire == multiset{}
  {
  }

  lemma PreparedHolding(s: Sys, clock: nat, text: string)
    requires Inv(s) && CanPrepare(s, clock, text)
    requires NoCopy(s.rooms, Issued(s.life.room, DoPrepare(s, clock, text).disk.journal.value))
    requires s.config.server.DeliversPromptly? ==> s.wire == multiset{}
    ensures LiveOk(DoPrepare(s, clock, text))
    ensures JournalOk(DoPrepare(s, clock, text).disk.journal, DoPrepare(s, clock, text).issued, s.rooms)
    ensures WireOk(DoPrepare(s, clock, text))
  {
    PreparedEnvelope(s, clock, text);
  }

  lemma PostKeeps(s: Sys)
    requires Inv(s) && CanPost(s)
    ensures Inv(DoPost(s))
  {
    RequestAdded(s, DoPost(s), ThisIssued(s));
  }

  lemma AnswerKeeps(s: Sys, reply: int)
    requires Inv(s) && CanAnswer(s, reply)
    ensures Inv(DoAnswer(s, reply))
  {
    CoreUnchanged(s, DoAnswer(s, reply));
    HoldingLast(s);
    MatchingRecordIsReply(s, reply);
    AnswerLife(s, reply);
  }

  lemma HoldingLast(s: Sys)
    requires LifeOk(s) && s.life.Live? && s.life.point.Posted?
    ensures s.issued != [] && s.issued[|s.issued| - 1] == Issued(s.life.room, s.life.point.record)
  {
  }

  lemma AnswerLife(s: Sys, reply: int)
    requires LifeOk(s) && CanAnswer(s, reply)
    requires ReplyPosted(RoomOf(s.rooms, s.life.room), s.life.point.record, reply)
    ensures LifeOk(DoAnswer(s, reply))
  {
  }

  // A record that carries the last envelope lies after its input.
  lemma MatchingRecordIsReply(s: Sys, reply: int)
    requires Core(s) && s.issued != []
    requires var i := s.issued[|s.issued| - 1];
             1 <= reply <= |RoomOf(s.rooms, i.room)| && i.record.Matches(RoomOf(s.rooms, i.room)[reply - 1])
    ensures ReplyPosted(RoomOf(s.rooms, s.issued[|s.issued| - 1].room), s.issued[|s.issued| - 1].record, reply)
  {
    var i := s.issued[|s.issued| - 1];
    assert EnvelopeOk(s.config.own, s.rooms, i);
    assert RecordsOk(s.config.own, i.room, RoomOf(s.rooms, i.room), s.issued);
  }

  lemma AcknowledgeKeeps(s: Sys)
    requires Inv(s) && CanAcknowledge(s)
    ensures Inv(DoAcknowledge(s))
  {
    AcknowledgeLife(s);
    AcknowledgedKeeps(s, DoAcknowledge(s), s.life.point.reply);
  }

  lemma AcknowledgeLife(s: Sys)
    requires LifeOk(s) && CanAcknowledge(s)
    requires s.disk.journal.Some? ==> WellFormedRecord(s.disk.journal.value)
    ensures LifeOk(DoAcknowledge(s))
    ensures s.disk.journal == Some(s.life.point.record) && s.issued != []
    ensures ReplyPosted(RoomOf(s.rooms, s.issued[|s.issued| - 1].room), s.life.point.record, s.life.point.reply)
  {
  }

  lemma AuditReplyKeeps(s: Sys, fields: AuditFields)
    requires Inv(s) && CanAuditReply(s, fields)
    ensures Inv(DoAuditReply(s, fields))
  {
    CoreUnchanged(s, DoAuditReply(s, fields));
  }

  lemma AuditOtherKeeps(s: Sys, fields: AuditFields)
    requires Inv(s) && CanAuditOther(s, fields)
    ensures Inv(DoAuditOther(s, fields))
  {
    CoreUnchanged(s, DoAuditOther(s, fields));
  }

  lemma PersistKeeps(s: Sys)
    requires Inv(s) && CanPersist(s)
    ensures Inv(DoPersist(s))
  {
    PersistLife(s);
    NewFileKeeps(s, DoPersist(s));
  }

  lemma PersistLife(s: Sys)
    requires LifeOk(s) && CanPersist(s)
    requires s.disk.journal.Some? ==> WellFormedRecord(s.disk.journal.value)
    ensures LifeOk(DoPersist(s)) && Forward(s.disk.file, DoPersist(s).disk.file)
  {
  }

  lemma ClearJournalKeeps(s: Sys)
    requires Inv(s) && CanClearJournal(s)
    ensures Inv(DoClearJournal(s))
  {
    ClearJournalLife(s);
    ClearedKeeps(s, DoClearJournal(s));
  }

  lemma ClearJournalLife(s: Sys)
    requires LifeOk(s) && CanClearJournal(s)
    ensures SettledJournal(s) && LifeOk(DoClearJournal(s))
  {
  }

  lemma StartRecoveryKeeps(s: Sys, room: string)
    requires Inv(s) && CanStartRecovery(s, room)
    ensures Inv(DoStartRecovery(s, room))
  {
    CoreUnchanged(s, DoStartRecovery(s, room));
  }

  lemma UseAcknowledgementKeeps(s: Sys)
    requires Inv(s) && CanUseAcknowledgement(s)
    ensures Inv(DoUseAcknowledgement(s))
  {
    CoreUnchanged(s, DoUseAcknowledgement(s));
  }

  // Copies of the last envelope lie after its input, so one complete read
  // finds them all.
  lemma SeenIsExact(s: Sys)
    requires Inv(s) && AtPendingInspection(s)
    ensures 0 <= s.life.record.inputSequence <= |RoomOf(s.rooms, s.life.room)|
    ensures Seen(s).Found? ==> ReplyPosted(RoomOf(s.rooms, s.life.room), s.life.record, Seen(s).reply)
    ensures Seen(s).NotFound? ==> NoCopy(s.rooms, Issued(s.life.room, s.life.record))
    ensures !Seen(s).Duplicates?
    ensures s.life.record == AsPending(s.life.record)
  {
    var room, record := RoomOf(s.rooms, s.life.room), s.life.record;
    LastEnvelopeRecords(s);
    InspectionIsExact(s.life.room, room, record);
    if |Copies(record, room)| > 1 {
      TwoCopies(record, room);
    }
  }

  predicate AtPendingInspection(s: Sys) {
    s.life.Recovery? && s.life.step.Inspecting? && s.life.record.status.Pending?
  }

  // The records that carry the last envelope: after its input, and at most one.
  lemma LastEnvelopeRecords(s: Sys)
    requires Inv(s) && AtPendingInspection(s)
    ensures s.life.record == AsPending(s.life.record) && Contiguous(RoomOf(s.rooms, s.life.room))
    ensures 0 <= s.life.record.inputSequence <= |RoomOf(s.rooms, s.life.room)|
    ensures var room := RoomOf(s.rooms, s.life.room);
            && (forall k :: 0 <= k < |room| && s.life.record.Matches(room[k]) ==> s.life.record.inputSequence <= k)
            && (forall j, k :: 0 <= j < k < |room| ==> !s.life.record.Matches(room[j]) || !s.life.record.Matches(room[k]))
  {
    var room, record := RoomOf(s.rooms, s.life.room), s.life.record;
    var last := |s.issued| - 1;
    assert s.issued[last] == Issued(s.life.room, record);
    assert EnvelopeOk(s.config.own, s.rooms, s.issued[last]);
    assert RecordsOk(s.config.own, s.life.room, room, s.issued);
    assert forall k :: 0 <= k < |room| && record.Matches(room[k]) ==> AgentSigned(s.config.own, room[k]);
  }

  lemma InspectRoomKeeps(s: Sys)
    requires Inv(s) && CanInspectRoom(s)
    ensures Inv(DoInspectRoom(s))
  {
    CoreUnchanged(s, DoInspectRoom(s));
    SeenIsExact(s);
  }

  lemma RepostKeeps(s: Sys)
    requires Inv(s) && CanRepost(s)
    ensures Inv(DoRepost(s))
  {
    var s' := DoRepost(s);
    RequestAdded(s, s', Issued(s.life.room, s.life.record));
  }

  // The last envelope goes out when nothing of it is posted or under way.
  lemma RequestAdded(s: Sys, s': Sys, i: Issued)
    requires WireOk(s) && s.disk.journal.Some? && s.issued != [] && i == s.issued[|s.issued| - 1] && Unsent(s, i)
    requires s'.config == s.config && s'.rooms == s.rooms && s'.issued == s.issued && s'.disk == s.disk
    requires s'.wire == s.wire + multiset{i}
    ensures WireOk(s')
  {
  }

  lemma RepostAnswerKeeps(s: Sys, reply: int)
    requires Inv(s) && CanRepostAnswer(s, reply)
    ensures Inv(DoRepostAnswer(s, reply))
  {
    CoreUnchanged(s, DoRepostAnswer(s, reply));
    RetriedLast(s);
    MatchingRecordIsReply(s, reply);
    RepostAnswerLife(s, reply);
  }

  lemma RetriedLast(s: Sys)
    requires LifeOk(s) && s.life.Recovery? && s.life.step.RetryPosted?
    ensures s.issued != [] && s.issued[|s.issued| - 1] == Issued(s.life.room, s.life.record)
  {
  }

  lemma RepostAnswerLife(s: Sys, reply: int)
    requires LifeOk(s) && CanRepostAnswer(s, reply)
    requires ReplyPosted(RoomOf(s.rooms, s.life.room), s.life.record, reply)
    ensures LifeOk(DoRepostAnswer(s, reply))
  {
  }

  lemma RecoverAcknowledgeKeeps(s: Sys)
    requires Inv(s) && CanRecoverAcknowledge(s)
    ensures Inv(DoRecoverAcknowledge(s))
  {
    RecoverAcknowledgeLife(s);
    AcknowledgedKeeps(s, DoRecoverAcknowledge(s), s.life.step.reply);
  }

  lemma RecoverAcknowledgeLife(s: Sys)
    requires LifeOk(s) && CanRecoverAcknowledge(s)
    ensures LifeOk(DoRecoverAcknowledge(s))
    ensures s.disk.journal == Some(s.life.record) && s.issued != []
    ensures ReplyPosted(RoomOf(s.rooms, s.issued[|s.issued| - 1].room), s.life.record, s.life.step.reply)
  {
  }

  lemma RecoverPersistKeeps(s: Sys)
    requires Inv(s) && CanRecoverPersist(s)
    ensures Inv(DoRecoverPersist(s))
  {
    RecoverPersistLife(s);
    NewFileKeeps(s, DoRecoverPersist(s));
  }

  lemma RecoverPersistLife(s: Sys)
    requires LifeOk(s) && CanRecoverPersist(s)
    ensures LifeOk(DoRecoverPersist(s)) && Forward(s.disk.file, DoRecoverPersist(s).disk.file)
  {
  }

  lemma RecoverClearKeeps(s: Sys)
    requires Inv(s) && CanRecoverClear(s)
    ensures Inv(DoRecoverClear(s))
  {
    RecoverClearLife(s);
    ClearedKeeps(s, DoRecoverClear(s));
  }

  lemma RecoverClearLife(s: Sys)
    requires LifeOk(s) && CanRecoverClear(s)
    ensures SettledJournal(s) && LifeOk(DoRecoverClear(s))
  {
  }

  lemma CrashKeeps(s: Sys)
    requires Inv(s) && CanCrash(s)
    ensures Inv(DoCrash(s))
  {
    CoreUnchanged(s, DoCrash(s));
  }

  function LandedRecord(rooms: map<string, Room>, i: Issued): RoomMessage {
    RoomMessage(|RoomOf(rooms, i.room)| + 1, i.record.did, i.record.text, Some(Numerals.Decimal(i.record.nonce)))
  }

  // In a room an issued nonce belongs to one envelope.
  lemma NonceNamesEnvelope(s: Sys, j: nat, k: nat)
    requires Core(s) && j < |s.issued| && k < |s.issued| && s.issued[j].room == s.issued[k].room
    requires Numerals.Decimal(s.issued[j].record.nonce) == Numerals.Decimal(s.issued[k].record.nonce)
    ensures j == k
  {
    Numerals.DecimalRoundTrip(s.issued[j].record.nonce);
    Numerals.DecimalRoundTrip(s.issued[k].record.nonce);
  }

  lemma LandedIsNew(s: Sys, e: nat)
    requires Core(s) && e < |s.issued| && CanLand(s, s.issued[e])
    ensures var room, m := RoomOf(s.rooms, s.issued[e].room), LandedRecord(s.rooms, s.issued[e]);
            forall k :: 0 <= k < |room| && AgentSigned(s.config.own, room[k]) ==> room[k].nonce != m.nonce
  {
    var envelope := s.issued[e];
    var room := RoomOf(s.rooms, envelope.room);
    assert EnvelopeOk(s.config.own, s.rooms, envelope);
    assert RecordsOk(s.config.own, envelope.room, room, s.issued);
    if s.config.server.RefusesReplay? {
      assert !NonceTaken(room, envelope.record);
    } else {
      assert NoCopy(s.rooms, envelope);
    }
  }

  lemma LandedRecordOk(s: Sys, e: nat)
    requires Core(s) && e < |s.issued| && CanLand(s, s.issued[e])
    ensures NewRecordOk(s.config.own, s.issued[e].room, RoomOf(s.rooms, s.issued[e].room),
                        LandedRecord(s.rooms, s.issued[e]), s.disk.file, s.issued, InJournal(s))
  {
    var envelope, m := s.issued[e], LandedRecord(s.rooms, s.issued[e]);
    assert EnvelopeOk(s.config.own, s.rooms, envelope);
    LandedIsNew(s, e);
    forall i | 0 <= i < |s.issued| && s.issued[i].room == envelope.room
               && m.nonce == Some(Numerals.Decimal(s.issued[i].record.nonce))
      ensures s.issued[i] == envelope
    {
      NonceNamesEnvelope(s, i, e);
    }
    LandedIsMarked(s, e);
  }

  lemma LandedIsMarked(s: Sys, e: nat)
    requires e < |s.issued| && MarksOk(s.disk.file, s.disk.journal, s.issued)
    ensures NoncesMarked(s.config.own, s.issued[e].room, [LandedRecord(s.rooms, s.issued[e])], s.disk.file, InJournal(s))
  {
    Numerals.DecimalRoundTrip(s.issued[e].record.nonce);
    assert e < SettledCount(s.disk.journal, s.issued) ==> Behind(s.disk.file, s.issued[e]);
  }

  lemma LandKeeps(s: Sys, envelope: Issued)
    requires Inv(s) && CanLand(s, envelope)
    ensures Inv(DoLand(s, envelope))
  {
    LandedWire(s, envelope);
    LandedUndisturbed(s, envelope);
    LandedEnvelopeOk(s, envelope);
    GrowthKeeps(s, DoLand(s, envelope), envelope.room, LandedRecord(s.rooms, envelope));
  }

  lemma LandedEnvelopeOk(s: Sys, envelope: Issued)
    requires Core(s) && CanLand(s, envelope)
    ensures NewRecordOk(s.config.own, envelope.room, RoomOf(s.rooms, envelope.room),
                        LandedRecord(s.rooms, envelope), s.disk.file, s.issued, InJournal(s))
  {
    assert envelope in s.issued;
    var e :| 0 <= e < |s.issued| && s.issued[e] == envelope;
    LandedRecordOk(s, e);
  }

  lemma LandedUndisturbed(s: Sys, envelope: Issued)
    requires CanLand(s, envelope)
    ensures Undisturbed(s, DoLand(s, envelope), envelope.room, LandedRecord(s.rooms, envelope))
  {
  }

  lemma LandedWire(s: Sys, envelope: Issued)
    requires Core(s) && CanLand(s, envelope)
    ensures WireOk(DoLand(s, envelope))
    ensures s.config.server.DeliversPromptly? ==> DoLand(s, envelope).wire == multiset{}
  {
    assert s.config.server.DeliversPromptly? ==> s.wire == multiset{envelope};
  }

  lemma LoseKeeps(s: Sys, envelope: Issued)
    requires Inv(s) && CanLose(s, envelope)
    ensures Inv(DoLose(s, envelope))
  {
    var s' := DoLose(s, envelope);
    assert forall i :: i in s'.wire ==> i in s.wire;
    assert s.config.server.DeliversPromptly? ==> s.wire == multiset{envelope};
    assert s.config.server.DeliversPromptly? ==> s'.wire == multiset{};
    FewerRequestsKeep(s, s');
  }

  lemma ChatterKeeps(s: Sys, room: string, sender: string, text: string, nonce: Option<string>)
    requires Inv(s) && CanChatter(s, room, sender, text, nonce)
    ensures Inv(DoChatter(s, room, sender, text, nonce))
  {
    var s' := DoChatter(s, room, sender, text, nonce);
    var m := RoomMessage(|RoomOf(s.rooms, room)| + 1, sender, text, nonce);
    ChatterLeavesWire(s, s', room, m);
    GrowthKeeps(s, s', room, m);
  }

  lemma ChatterLeavesWire(s: Sys, s': Sys, name: string, m: RoomMessage)
    requires Core(s) && Grown(s.rooms, s'.rooms, name, m) && s' == s.(rooms := s'.rooms)
    requires !AgentSigned(s.config.own, m)
    ensures WireOk(s')
  {
    forall i | i in s.wire && s.config.server.DeliversPromptly?
      ensures NoCopy(s'.rooms, i)
    {
      assert EnvelopeOk(s.config.own, s.rooms, s.issued[|s.issued| - 1]);
      assert NoCopy(s.rooms, i);
    }
  }

  // ---- Runs ----

  lemma LiveStepKeeps(s: Sys, step: Step)
    requires Inv(s) && Enabled(s, step) && IsLiveStep(step)
    ensures Inv(Apply(s, step))
  {
    match step
    case StartLive(room, metered) => StartLiveKeeps(s, room, metered);
    case SkipTo(sequence) => SkipToKeeps(s, sequence);
    case SeeGeneration(generation) => SeeGenerationKeeps(s, generation);
    case SaveGeneration => SaveGenerationKeeps(s);
    case Take(m) => TakeKeeps(s, m);
    case Reserve(now, limit) => ReserveKeeps(s, now, limit);
    case LookUp => LookUpKeeps(s);
    case Prepare(clock, text) => PrepareKeeps(s, clock, text);
    case Post => PostKeeps(s);
    case Answer(reply) => AnswerKeeps(s, reply);
    case Acknowledge => AcknowledgeKeeps(s);
    case AuditReply(fields) => AuditReplyKeeps(s, fields);
    case AuditOther(fields) => AuditOtherKeeps(s, fields);
    case Persist => PersistKeeps(s);
    case ClearJournal => ClearJournalKeeps(s);
  }

  lemma RecoveryStepKeeps(s: Sys, step: Step)
    requires Inv(s) && Enabled(s, step) && IsRecoveryStep(step)
    ensures Inv(Apply(s, step))
  {
    match step
    case StartRecovery(room) => StartRecoveryKeeps(s, room);
    case UseAcknowledgement => UseAcknowledgementKeeps(s);
    case InspectRoom => InspectRoomKeeps(s);
    case Repost => RepostKeeps(s);
    case RepostAnswer(reply) => RepostAnswerKeeps(s, reply);
    case RecoverAcknowledge => RecoverAcknowledgeKeeps(s);
    case RecoverPersist => RecoverPersistKeeps(s);
    case RecoverClear => RecoverClearKeeps(s);
  }

  lemma OutsideStepKeeps(s: Sys, step: Step)
    requires Inv(s) && Enabled(s, step) && IsOutsideStep(step)
    ensures Inv(Apply(s, step))
  {
    match step
    case Crash => CrashKeeps(s);
    case Land(envelope) => LandKeeps(s, envelope);
    case Lose(envelope) => LoseKeeps(s, envelope);
    case Chatter(room, sender, text, nonce) => ChatterKeeps(s, room, sender, text, nonce);
  }

  lemma StepKeeps(s: Sys, step: Step)
    requires Inv(s) && Enabled(s, step)
    ensures Inv(Apply(s, step))
  {
    if IsLiveStep(step) {
      LiveStepKeeps(s, step);
    } else if IsRecoveryStep(step) {
      RecoveryStepKeeps(s, step);
    } else {
      OutsideStepKeeps(s, step);
    }
  }

  lemma {:induction false} RunKeeps(s: Sys, steps: seq<Step>, t: Sys)
    requires Inv(s) && Runs(s, steps, t)
    ensures Inv(t)
    decreases steps
  {
    if steps != [] {
      StepKeeps(s, steps[0]);
      RunKeeps(Apply(s, steps[0]), steps[1..], t);
    }
  }

  ghost predicate Reachable(s: Sys) {
    exists s0 :: Init(s0) && Reaches(s0, s)
  }

  lemma ReachableKeeps(s: Sys)
    requires Reachable(s)
    ensures Inv(s)
  {
    var s0 :| Init(s0) && Reaches(s0, s);
    var steps :| Runs(s0, steps, s);
    InitHolds(s0);
    RunKeeps(s0, steps, s);
  }

  lemma ReachableEvidence(s: Sys)
    requires Reachable(s)
    ensures IssuedOk(s.config.own, s.rooms, s.issued)
    ensures JournalOk(s.disk.journal, s.issued, s.rooms)
    ensures MarksOk(s.disk.file, s.disk.journal, s.issued)
  {
    ReachableKeeps(s);
  }

  lemma ReachableRecords(s: Sys, name: string)
    requires Reachable(s)
    ensures RecordsOk(s.config.own, name, RoomOf(s.rooms, name), s.issued)
    ensures NoncesMarked(s.config.own, name, RoomOf(s.rooms, name), s.disk.file, InJournal(s))
  {
    ReachableKeeps(s);
  }

  lemma ReachableWire(s: Sys)
    requires Reachable(s)
    ensures forall e :: e in s.wire ==> e in s.issued
  {
    ReachableKeeps(s);
  }

  // The record at position k of a room is the agent's answer to an input.
  ghost predicate Replies(s: Sys, name: string, k: nat, inputSequence: int) {
    k < |RoomOf(s.rooms, name)|
    && exists i :: 0 <= i < |s.issued| && s.issued[i].room == name
                   && s.issued[i].record.inputSequence == inputSequence
                   && s.issued[i].record.Matches(RoomOf(s.rooms, name)[k])
  }

  // At most once: in every run, whatever crashes, lost acknowledgements,
  // recoveries and retries it contains, no room ever holds two agent-signed
  // replies to one input.
  lemma AtMostOneReply(s: Sys, name: string, j: nat, k: nat, inputSequence: int)
    requires Reachable(s) && Replies(s, name, j, inputSequence) && Replies(s, name, k, inputSequence)
    ensures j == k
  {
    ReachableEvidence(s);
    ReachableRecords(s, name);
    OneReplyPerInput(s.config.own, s.rooms, name, s.issued, j, k, inputSequence);
  }

  lemma OneReplyPerInput(
      own: string, rooms: map<string, Room>, name: string, issued: seq<Issued>, j: nat, k: nat, inputSequence: int)
    requires IssuedOk(own, rooms, issued) && RecordsOk(own, name, RoomOf(rooms, name), issued)
    requires j < |RoomOf(rooms, name)| && k < |RoomOf(rooms, name)|
    requires exists i :: 0 <= i < |issued| && issued[i].room == name
                         && issued[i].record.inputSequence == inputSequence
                         && issued[i].record.Matches(RoomOf(rooms, name)[j])
    requires exists i :: 0 <= i < |issued| && issued[i].room == name
                         && issued[i].record.inputSequence == inputSequence
                         && issued[i].record.Matches(RoomOf(rooms, name)[k])
    ensures j == k
  {
    var room := RoomOf(rooms, name);
    var a :| 0 <= a < |issued| && issued[a].room == name
             && issued[a].record.inputSequence == inputSequence && issued[a].record.Matches(room[j]);
    var b :| 0 <= b < |issued| && issued[b].room == name
             && issued[b].record.inputSequence == inputSequence && issued[b].record.Matches(room[k]);
    assert a == b;
    assert EnvelopeOk(own, rooms, issued[a]);
    assert AgentSigned(own, room[j]) && AgentSigned(own, room[k]);
  }

  // The disk always tells. An envelope that may have reached the server and
  // whose input is above the saved cursor is the one in the journal; and with
  // an empty journal every reply lies behind the saved cursor and every nonce
  // of the identity at or below the saved mark.
  lemma EvidenceOnDisk(s: Sys, i: Issued)
    requires Reachable(s) && i in s.issued
    ensures i.record.inputSequence > s.disk.file.Cursor(i.room) ==>
              s.disk.journal.Some? && AsPending(s.disk.journal.value) == i.record
    ensures s.disk.journal.None? ==>
              i.record.inputSequence <= s.disk.file.Cursor(i.room) && i.record.nonce <= s.disk.file.NonceMark(i.room)
    ensures forall e :: e in s.wire ==> e in s.issued
  {
    ReachableEvidence(s);
    ReachableWire(s);
    LastOrBehind(s.disk.file, s.disk.journal, s.issued, s.rooms, i);
  }

  lemma LastOrBehind(file: StateFile, journal: Option<DeliveryRecord>, issued: seq<Issued>, rooms: map<string, Room>,
                     i: Issued)
    requires MarksOk(file, journal, issued) && JournalOk(journal, issued, rooms) && i in issued
    ensures Behind(file, i) || (journal.Some? && AsPending(journal.value) == i.record)
  {
    var k :| 0 <= k < |issued| && issued[k] == i;
    assert k < SettledCount(journal, issued) ==> Behind(file, issued[k]);
  }

  lemma NoncesBehindMark(s: Sys, name: string, k: nat)
    requires Reachable(s) && s.disk.journal.None?
    requires k < |RoomOf(s.rooms, name)| && AgentSigned(s.config.own, RoomOf(s.rooms, name)[k])
    ensures Numerals.NumberOf(RoomOf(s.rooms, name)[k].nonce.value) <= s.disk.file.NonceMark(name)
  {
    ReachableRecords(s, name);
  }

  // Every envelope that is ever journalled for a room has a nonce above all
  // earlier ones, of at most 19 digits, whatever the clock reads.
  lemma NoncesStayFresh(s: Sys, j: nat, k: nat)
    requires Reachable(s) && j < k < |s.issued| && s.issued[j].room == s.issued[k].room
    ensures s.issued[j].record.nonce < s.issued[k].record.nonce
    ensures |Numerals.Decimal(s.issued[k].record.nonce)| <= 19
    ensures s.disk.journal.Some? ==> s.issued[|s.issued| - 1].record == AsPending(s.disk.journal.value)
  {
    ReachableEvidence(s);
    assert EnvelopeOk(s.config.own, s.rooms, s.issued[k]);
  }

  // A new envelope's nonce is not in its room yet, not even from before the run.
  lemma PreparedNonceIsNew(s: Sys, clock: nat, text: string)
    requires Reachable(s) && CanPrepare(s, clock, text)
    ensures NoCopy(s.rooms, Issued(s.life.room, DoPrepare(s, clock, text).disk.journal.value))
    ensures forall k :: 0 <= k < |RoomOf(s.rooms, s.life.room)| && AgentSigned(s.config.own, RoomOf(s.rooms, s.life.room)[k]) ==>
                          RoomOf(s.rooms, s.life.room)[k].nonce
                          != Some(Numerals.Decimal(DoPrepare(s, clock, text).disk.journal.value.nonce))
  {
    ReachableKeeps(s);
    PreparedEnvelope(s, clock, text);
    FreshNonce(s, Issued(s.life.room, DoPrepare(s, clock, text).disk.journal.value));
  }

  // Nothing is sent for an acknowledged journal, live or in recovery.
  lemma AcknowledgedIsNeverPosted(s: Sys)
    requires Reachable(s) && (CanPost(s) || CanRepost(s))
    ensures s.disk.journal.Some? && s.disk.journal.value.status.Pending?
  {
    ReachableKeeps(s);
    assert EnvelopeOk(s.config.own, s.rooms, s.issued[|s.issued| - 1]);
  }
}
