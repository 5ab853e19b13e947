// The audit log against the rooms: what an audited reply proves, over every
// run of the reply protocol.
module AuditSafety {
  import opened Wrappers
  import opened State
  import opened Audit
  import opened Delivery
  import opened Recovery
  import opened DeliveryProtocol
  import opened Safety

  predicate IsReplyNote(n: AuditNote) {
    n.fields.outcome.Sent? || n.fields.outcome.SentReceipt?
  }

  predicate Concerns(n: AuditNote, room: string, inputSequence: int) {
    IsReplyNote(n) && n.room == room && n.fields.inputSequence == inputSequence
  }

  // The entry names a prepared envelope and the record that carries it.
  ghost predicate Backed(rooms: map<string, Room>, issued: seq<Issued>, n: AuditNote) {
    n.fields.responseSequence.Some?
    && exists k :: 0 <= k < |issued| && Concerns(n, issued[k].room, issued[k].record.inputSequence)
                   && ReplyPosted(RoomOf(rooms, n.room), issued[k].record, n.fields.responseSequence.value)
  }

  // No input has two entries for a reply.
  predicate OnePerInput(notes: seq<AuditNote>) {
    forall j, k :: 0 <= j < k < |notes| && IsReplyNote(notes[k]) ==>
                     !Concerns(notes[j], notes[k].room, notes[k].fields.inputSequence)
  }

  predicate Unaudited(notes: seq<AuditNote>, room: string, inputSequence: int) {
    forall k :: 0 <= k < |notes| ==> !Concerns(notes[k], room, inputSequence)
  }

  // An audited input lies behind the saved cursor or is the journal's.
  predicate NoteMarked(file: StateFile, inJournal: seq<Issued>, n: AuditNote) {
    || n.fields.inputSequence <= file.Cursor(n.room)
    || (inJournal != [] && Concerns(n, inJournal[|inJournal| - 1].room, inJournal[|inJournal| - 1].record.inputSequence))
  }

  predicate NotesMarked(file: StateFile, inJournal: seq<Issued>, notes: seq<AuditNote>) {
    forall k :: 0 <= k < |notes| && IsReplyNote(notes[k]) ==> NoteMarked(file, inJournal, notes[k])
  }

  predicate BeforeAudit(life: Life) {
    life.Live? && (life.point.Prepared? || life.point.Posted? || life.point.Answered? || life.point.Acked?)
  }

  predicate LifeUnaudited(life: Life, notes: seq<AuditNote>) {
    BeforeAudit(life) ==> Unaudited(notes, life.room, life.point.m.seqno)
  }

  ghost predicate AuditInv(s: Sys) {
    && (forall k :: 0 <= k < |s.disk.audit| && IsReplyNote(s.disk.audit[k]) ==>
                      Backed(s.rooms, s.issued, s.disk.audit[k]))
    && OnePerInput(s.disk.audit)
    && NotesMarked(s.disk.file, InJournal(s), s.disk.audit)
    && LifeUnaudited(s.life, s.disk.audit)
  }

  // ---- Steps that do not write the log ----

  // The evidence behind the log only grows: envelopes, records, the cursor,
  // and the journal until its input is behind the cursor.
  ghost predicate EvidenceGrows(s: Sys, s': Sys) {
    && s.issued <= s'.issued
    && Forward(s.disk.file, s'.disk.file)
    && (forall q, record, reply {:trigger ReplyPosted(RoomOf(s'.rooms, q), record, reply)} ::
          ReplyPosted(RoomOf(s.rooms, q), record, reply) ==> ReplyPosted(RoomOf(s'.rooms, q), record, reply))
    && (InJournal(s) == InJournal(s')
        || InJournal(s) == []
        || InJournal(s)[|InJournal(s)| - 1].record.inputSequence
           <= s'.disk.file.Cursor(InJournal(s)[|InJournal(s)| - 1].room))
  }

  lemma NotesKept(s: Sys, s': Sys)
    requires AuditInv(s) && EvidenceGrows(s, s') && s'.disk.audit == s.disk.audit
    requires LifeUnaudited(s'.life, s'.disk.audit)
    ensures AuditInv(s')
  {
    forall k | 0 <= k < |s.disk.audit| && IsReplyNote(s.disk.audit[k])
      ensures Backed(s'.rooms, s'.issued, s.disk.audit[k])
    {
      StaysBacked(s, s', s.disk.audit[k]);
    }
    forall k | 0 <= k < |s.disk.audit| && IsReplyNote(s.disk.audit[k])
      ensures NoteMarked(s'.disk.file, InJournal(s'), s.disk.audit[k])
    {
      assert NoteMarked(s.disk.file, InJournal(s), s.disk.audit[k]);
      var q := s.disk.audit[k].room;
      assert s.disk.file.Cursor(q) <= s'.disk.file.Cursor(q);
    }
  }

  lemma StaysBacked(s: Sys, s': Sys, n: AuditNote)
    requires EvidenceGrows(s, s') && Backed(s.rooms, s.issued, n)
    ensures Backed(s'.rooms, s'.issued, n)
  {
    var k :| 0 <= k < |s.issued| && Concerns(n, s.issued[k].room, s.issued[k].record.inputSequence)
             && ReplyPosted(RoomOf(s.rooms, n.room), s.issued[k].record, n.fields.responseSequence.value);
    assert s'.issued[k] == s.issued[k];
    assert ReplyPosted(RoomOf(s'.rooms, n.room), s'.issued[k].record, n.fields.responseSequence.value);
  }

  // The life moved without reaching an unaudited point it was not at.
  predicate SameDuty(life: Life, life': Life) {
    BeforeAudit(life') ==> BeforeAudit(life) && life'.room == life.room && life'.point.m == life.point.m
  }

  predicate LeavesDisk(step: Step) {
    || step.StartLive? || step.SeeGeneration? || step.Take? || step.LookUp? || step.Post? || step.Answer?
    || step.StartRecovery? || step.UseAcknowledgement? || step.InspectRoom? || step.Repost? || step.RepostAnswer?
    || step.Crash? || step.Lose?
  }

  lemma NoDiskStepKeepsAudit(s: Sys, step: Step)
    requires AuditInv(s) && Enabled(s, step) && LeavesDisk(step)
    ensures AuditInv(Apply(s, step))
  {
    NoDiskStep(s, step);
    NotesKept(s, Apply(s, step));
  }

  lemma NoDiskStep(s: Sys, step: Step)
    requires Enabled(s, step) && LeavesDisk(step)
    ensures var s' := Apply(s, step);
            s'.disk == s.disk && s'.rooms == s.rooms && s'.issued == s.issued && SameDuty(s.life, s'.life)
  {
  }

  predicate SavesState(step: Step) {
    step.SkipTo? || step.SaveGeneration? || step.Reserve? || step.Persist? || step.RecoverPersist?
  }

  lemma SavingStepKeepsAudit(s: Sys, step: Step)
    requires Inv(s) && AuditInv(s) && Enabled(s, step) && SavesState(step)
    ensures AuditInv(Apply(s, step))
  {
    SavingStep(s, step);
    NotesKept(s, Apply(s, step));
  }

  lemma SavingStep(s: Sys, step: Step)
    requires LifeOk(s) && Enabled(s, step) && SavesState(step)
    ensures var s' := Apply(s, step);
            && s'.disk == s.disk.(file := s'.disk.file) && s'.rooms == s.rooms && s'.issued == s.issued
            && Forward(s.disk.file, s'.disk.file) && SameDuty(s.life, s'.life)
  {
  }

  predicate WritesJournal(step: Step) {
    step.Acknowledge? || step.ClearJournal? || step.RecoverAcknowledge? || step.RecoverClear?
  }

  lemma JournalStepKeepsAudit(s: Sys, step: Step)
    requires Inv(s) && AuditInv(s) && Enabled(s, step) && WritesJournal(step)
    ensures AuditInv(Apply(s, step))
  {
    JournalStep(s, step);
    JournalRewritten(s, Apply(s, step));
  }

  // The journal keeps its envelope or goes once that is behind the cursor.
  predicate JournalMoves(s: Sys, s': Sys) {
    && s'.disk == s.disk.(journal := s'.disk.journal) && s'.rooms == s.rooms && s'.issued == s.issued
    && SameDuty(s.life, s'.life) && s.disk.journal.Some? && s.issued != []
    && (s'.disk.journal.None? ==> Behind(s.disk.file, s.issued[|s.issued| - 1]))
  }

  lemma JournalRewritten(s: Sys, s': Sys)
    requires AuditInv(s) && JournalMoves(s, s')
    ensures AuditInv(s')
  {
    NotesKept(s, s');
  }

  lemma JournalStep(s: Sys, step: Step)
    requires LifeOk(s) && Enabled(s, step) && WritesJournal(step)
    requires s.disk.journal.Some? ==> WellFormedRecord(s.disk.journal.value)
    ensures JournalMoves(s, Apply(s, step))
  {
    match step
    case Acknowledge => AcknowledgeLife(s);
    case ClearJournal => ClearJournalLife(s);
    case RecoverAcknowledge => RecoverAcknowledgeLife(s);
    case RecoverClear => RecoverClearLife(s);
  }

  lemma RoomStepKeepsAudit(s: Sys, step: Step)
    requires AuditInv(s) && Enabled(s, step) && (step.Land? || step.Chatter?)
    ensures AuditInv(Apply(s, step))
  {
    NotesKept(s, Apply(s, step));
  }

  // ---- Steps that start or make an entry ----

  // A message above the cursor has no entry while the journal is empty.
  lemma NewInputUnaudited(s: Sys)
    requires AuditInv(s) && s.life.Live? && s.disk.journal.None?
    requires s.life.point.Handling? && s.life.point.m.seqno > s.disk.file.Cursor(s.life.room)
    ensures Unaudited(s.disk.audit, s.life.room, s.life.point.m.seqno)
  {
    forall k | 0 <= k < |s.disk.audit|
      ensures !Concerns(s.disk.audit[k], s.life.room, s.life.point.m.seqno)
    {
      assert IsReplyNote(s.disk.audit[k]) ==> NoteMarked(s.disk.file, [], s.disk.audit[k]);
    }
  }

  lemma PrepareKeepsAudit(s: Sys, clock: nat, text: string)
    requires Inv(s) && AuditInv(s) && CanPrepare(s, clock, text)
    ensures AuditInv(DoPrepare(s, clock, text))
  {
    NewInputUnaudited(s);
    NotesKept(s, DoPrepare(s, clock, text));
  }

  lemma AuditOtherKeepsAudit(s: Sys, fields: AuditFields)
    requires AuditInv(s) && CanAuditOther(s, fields)
    ensures AuditInv(DoAuditOther(s, fields))
  {
    NoteAppended(s, DoAuditOther(s, fields), AuditNote(s.life.room, fields));
  }

  lemma AuditReplyKeepsAudit(s: Sys, fields: AuditFields)
    requires Inv(s) && AuditInv(s) && CanAuditReply(s, fields)
    ensures AuditInv(DoAuditReply(s, fields))
  {
    var n := AuditNote(s.life.room, fields);
    var last := |s.issued| - 1;
    assert Concerns(n, s.issued[last].room, s.issued[last].record.inputSequence);
    assert Backed(s.rooms, s.issued, n);
    NoteAppended(s, DoAuditReply(s, fields), n);
  }

  lemma NoteAppended(s: Sys, s': Sys, n: AuditNote)
    requires AuditInv(s)
    requires IsReplyNote(n) ==> Backed(s.rooms, s.issued, n) && NoteMarked(s.disk.file, InJournal(s), n)
    requires IsReplyNote(n) ==> Unaudited(s.disk.audit, n.room, n.fields.inputSequence)
    requires s'.disk == s.disk.(audit := s.disk.audit + [n]) && s'.rooms == s.rooms && s'.issued == s.issued
    requires !BeforeAudit(s'.life)
    ensures AuditInv(s')
  {
    var notes := s.disk.audit + [n];
    forall j, k | 0 <= j < k < |notes| && IsReplyNote(notes[k])
      ensures !Concerns(notes[j], notes[k].room, notes[k].fields.inputSequence)
    {
      assert notes[j] == s.disk.audit[j];
    }
    forall k | 0 <= k < |notes| && IsReplyNote(notes[k])
      ensures Backed(s'.rooms, s'.issued, notes[k]) && NoteMarked(s'.disk.file, InJournal(s'), notes[k])
    {
      assert k < |s.disk.audit| ==> NoteMarked(s.disk.file, InJournal(s), s.disk.audit[k]);
    }
  }

  // ---- Runs ----

  lemma StepKeepsAudit(s: Sys, step: Step)
    requires Inv(s) && AuditInv(s) && Enabled(s, step)
    ensures AuditInv(Apply(s, step))
  {
    if LeavesDisk(step) {
      NoDiskStepKeepsAudit(s, step);
    } else if SavesState(step) {
      SavingStepKeepsAudit(s, step);
    } else if WritesJournal(step) {
      JournalStepKeepsAudit(s, step);
    } else {
      match step
      case Prepare(clock, text) => PrepareKeepsAudit(s, clock, text);
      case AuditReply(fields) => AuditReplyKeepsAudit(s, fields);
      case AuditOther(fields) => AuditOtherKeepsAudit(s, fields);
      case _ => RoomStepKeepsAudit(s, step);
    }
  }

  lemma {:induction false} RunKeepsAudit(s: Sys, steps: seq<Step>, t: Sys)
    requires Inv(s) && AuditInv(s) && Runs(s, steps, t)
    ensures AuditInv(t)
    decreases steps
  {
    if steps != [] {
      StepKeeps(s, steps[0]);
      StepKeepsAudit(s, steps[0]);
      RunKeepsAudit(Apply(s, steps[0]), steps[1..], t);
    }
  }

  // Over every crashing run, an input has at most one audited reply, and each
  // audited reply names a record of the room that is a prepared answer to it.
  lemma AuditedRepliesAreReal(s: Sys)
    requires Reachable(s)
    ensures OnePerInput(s.disk.audit)
    ensures forall k :: 0 <= k < |s.disk.audit| && IsReplyNote(s.disk.audit[k]) ==>
                          Backed(s.rooms, s.issued, s.disk.audit[k])
  {
    var s0 :| Init(s0) && Reaches(s0, s);
    var steps :| Runs(s0, steps, s);
    InitHolds(s0);
    RunKeepsAudit(s0, steps, s);
  }
}
